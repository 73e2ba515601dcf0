/**
 Completion calls under a strict token budget: the budget is checked against a
 cumulative ledger before any provider is called and again after a response.
 */
module LlmBudget {
  import opened Prelude
  import opened LlmTypes
  import opened LlmStreaming

  /** Cumulative provider-reported usage. */
  datatype Ledger = Ledger(prompt: nat, completion: nat, total: nat)

  datatype Budget = Budget(maxPrompt: Option<nat>, maxCompletion: Option<nat>, maxTotal: Option<nat>, strict: bool)

  datatype Category = PromptTokens | CompletionTokens | TotalTokens

  datatype Request = Request(maxTokens: Option<nat>, selected: string, fallbacks: seq<string>)

  datatype Reply = Answer(usage: Option<Usage>) | Refused(failure: Failure)

  /** Providers are scripted: the n-th call of a session finds the n-th reply. */
  datatype Providers = Providers(reply: (string, nat, Request) -> Reply)

  const Zero := Ledger(0, 0, 0)

  function Known(n: Option<nat>): nat { if n.Some? then n.value else 0 }

  /** `apply_usage_to_ledger` */
  function ApplyUsage(l: Ledger, u: Option<Usage>): Ledger {
    if u.None? then l
    else Ledger(l.prompt + Known(u.value.prompt), l.completion + Known(u.value.completion), l.total + Known(u.value.total))
  }

  predicate Above(limit: Option<nat>, n: nat) { limit.Some? && n > limit.value }

  /** `check_token_budget` */
  function Exceeded(b: Budget, l: Ledger): seq<Category> {
    (if Above(b.maxPrompt, l.prompt) then [PromptTokens] else [])
    + (if Above(b.maxCompletion, l.completion) then [CompletionTokens] else [])
    + (if Above(b.maxTotal, l.total) then [TotalTokens] else [])
  }

  /** `_check_request_budget`: the ledger so far, and with the request's own limit added. */
  function RequestExceeds(b: Budget, l: Ledger, maxTokens: Option<nat>): seq<Category> {
    var now := Exceeded(b, l);
    if maxTokens.None? then now
    else
      now
      + (if Above(b.maxCompletion, l.completion + maxTokens.value) && CompletionTokens !in now then [CompletionTokens] else [])
      + (if Above(b.maxTotal, l.total + maxTokens.value) && TotalTokens !in now then [TotalTokens] else [])
  }

  // ----- one chat --------------------------------------------------------

  datatype CompleteRun = CompleteRun(calls: seq<string>, reply: Reply)

  /** `_complete_with_retries` from an attempt on; `n` calls were made before it. */
  function Complete(ps: Providers, p: RetryPolicy, name: string, req: Request, attempt: nat, n: nat): CompleteRun
    requires 1 <= attempt <= p.maxAttempts
    decreases p.maxAttempts - attempt
  {
    var r := ps.reply(name, n, req);
    if r.Answer? || !Retryable(p, r.failure.category) || attempt >= p.maxAttempts then CompleteRun([name], r)
    else
      var rest := Complete(ps, p, name, req, attempt + 1, n + 1);
      CompleteRun([name] + rest.calls, rest.reply)
  }

  /** The fallback loop of `_chat_with_routing`. */
  function Route(ps: Providers, p: RetryPolicy, names: seq<string>, req: Request, n: nat): CompleteRun
    requires ValidPolicy(p) && names != []
    decreases |names|
  {
    var here := Complete(ps, p, names[0], req, 1, n);
    if here.reply.Answer? then here
    else if !GoesOn(p, here.reply.failure) then CompleteRun(here.calls, Refused(Failure(here.reply.failure.category, true)))
    else if |names| == 1 then CompleteRun(here.calls, Refused(Exhausted))
    else
      var rest := Route(ps, p, names[1..], req, n + |here.calls|);
      CompleteRun(here.calls + rest.calls, rest.reply)
  }

  /** After which failures the next provider is tried. */
  predicate GoesOn(p: RetryPolicy, f: Failure) { f.providerError || Retryable(p, f.category) }

  /** The error raised when no provider is left. */
  const Exhausted := Failure("provider", true)

  lemma CompleteTurn(ps: Providers, p: RetryPolicy, name: string, req: Request, attempt: nat, n: nat)
    requires 1 <= attempt <= p.maxAttempts
    ensures var r := ps.reply(name, n, req);
            Complete(ps, p, name, req, attempt, n) ==
              if r.Answer? || !Retryable(p, r.failure.category) || attempt >= p.maxAttempts then CompleteRun([name], r)
              else
                var rest := Complete(ps, p, name, req, attempt + 1, n + 1);
                CompleteRun([name] + rest.calls, rest.reply)
  {
    hide Retryable;
  }

  lemma RouteTurn(ps: Providers, p: RetryPolicy, names: seq<string>, req: Request, n: nat)
    requires ValidPolicy(p) && names != []
    ensures var here := Complete(ps, p, names[0], req, 1, n);
            Route(ps, p, names, req, n) ==
              if here.reply.Answer? then here
              else if !GoesOn(p, here.reply.failure) then CompleteRun(here.calls, Refused(Failure(here.reply.failure.category, true)))
              else if |names| == 1 then CompleteRun(here.calls, Refused(Exhausted))
              else
                var rest := Route(ps, p, names[1..], req, n + |here.calls|);
                CompleteRun(here.calls + rest.calls, rest.reply)
  {
    hide Retryable, Complete;
  }

  /** `LeftEarly`: the consumer of a stream closed it before its end. */
  datatype ChatOutcome = Ok | BudgetExceeded(categories: seq<Category>) | ProviderFailed(failure: Failure) | LeftEarly

  datatype ChatRun = ChatRun(calls: seq<string>, ledger: Ledger, outcome: ChatOutcome)

  /** `chat`: check, call, charge, check again. */
  function Chat(ps: Providers, p: RetryPolicy, b: Budget, l: Ledger, req: Request, n: nat): ChatRun
    requires ValidPolicy(p)
  {
    var before := RequestExceeds(b, l, req.maxTokens);
    if before != [] && b.strict then ChatRun([], l, BudgetExceeded(before))
    else
      var r := Route(ps, p, OrderedUnique([req.selected] + req.fallbacks, {}), req, n);
      match r.reply
      case Refused(f) => ChatRun(r.calls, l, ProviderFailed(f))
      case Answer(u) =>
        var l' := ApplyUsage(l, u);
        ChatRun(r.calls, l', if Exceeded(b, l') != [] && b.strict then BudgetExceeded(Exceeded(b, l')) else Ok)
  }

  datatype Session = Session(ledger: Ledger, calls: seq<string>, outcomes: seq<ChatOutcome>)

  /** Any sequence of chats on one runtime. */
  function Chats(ps: Providers, p: RetryPolicy, b: Budget, s: Session, reqs: seq<Request>): Session
    requires ValidPolicy(p)
    decreases |reqs|
  {
    if reqs == [] then s
    else
      var r := Chat(ps, p, b, s.ledger, reqs[0], |s.calls|);
      Chats(ps, p, b, Session(r.ledger, s.calls + r.calls, s.outcomes + [r.outcome]), reqs[1..])
  }

  // ----- the theorems ----------------------------------------------------

  /**
   Once the ledger exceeds any limit of a strict budget, no provider is called
   again: every later chat is refused before it reaches one.
   */
  lemma {:induction false} NoCallOnceExceeded(ps: Providers, p: RetryPolicy, b: Budget, s: Session, reqs: seq<Request>)
    requires ValidPolicy(p) && b.strict && Exceeded(b, s.ledger) != []
    ensures var t := Chats(ps, p, b, s, reqs);
            && t.ledger == s.ledger && t.calls == s.calls
            && |t.outcomes| == |s.outcomes| + |reqs| && forall i | |s.outcomes| <= i < |t.outcomes| :: t.outcomes[i].BudgetExceeded?
    ensures s.outcomes <= Chats(ps, p, b, s, reqs).outcomes
    decreases |reqs|
  {
    if reqs != [] {
      var r := Chat(ps, p, b, s.ledger, reqs[0], |s.calls|);
      assert r == ChatRun([], s.ledger, BudgetExceeded(RequestExceeds(b, s.ledger, reqs[0].maxTokens)));
      hide Chat, Exceeded, RequestExceeds;
      var next := Session(r.ledger, s.calls + r.calls, s.outcomes + [r.outcome]);
      assert s.calls + [] == s.calls;
      NoCallOnceExceeded(ps, p, b, next, reqs[1..]);
      var t := Chats(ps, p, b, next, reqs[1..]);
      assert t == Chats(ps, p, b, s, reqs);
      assert t.outcomes[|s.outcomes|] == next.outcomes[|s.outcomes|];
    }
  }

  /** Providers report no more completion tokens than a request allowed. */
  ghost predicate Honest(ps: Providers) {
    forall name: string, n: nat, req: Request :: HonestReply(ps.reply(name, n, req), req)
  }

  predicate HonestReply(r: Reply, req: Request) {
    r.Answer? && r.usage.Some? && req.maxTokens.Some? ==> Known(r.usage.value.completion) <= req.maxTokens.value
  }

  lemma {:induction false} CompleteHonest(ps: Providers, p: RetryPolicy, name: string, req: Request, attempt: nat, n: nat)
    requires Honest(ps) && 1 <= attempt <= p.maxAttempts
    ensures HonestReply(Complete(ps, p, name, req, attempt, n).reply, req)
    decreases p.maxAttempts - attempt
  {
    var r := ps.reply(name, n, req);
    assert HonestReply(r, req);
    if !(r.Answer? || !Retryable(p, r.failure.category) || attempt >= p.maxAttempts) {
      CompleteHonest(ps, p, name, req, attempt + 1, n + 1);
    }
  }

  lemma {:induction false} RouteHonest(ps: Providers, p: RetryPolicy, names: seq<string>, req: Request, n: nat)
    requires Honest(ps) && ValidPolicy(p) && names != []
    ensures HonestReply(Route(ps, p, names, req, n).reply, req)
    decreases |names|
  {
    hide Complete, Honest, Retryable;
    CompleteHonest(ps, p, names[0], req, 1, n);
    var here := Complete(ps, p, names[0], req, 1, n);
    if here.reply.Refused? && |names| > 1 && GoesOn(p, here.reply.failure) {
      RouteHonest(ps, p, names[1..], req, n + |here.calls|);
    }
  }

  lemma ChatBound(ps: Providers, p: RetryPolicy, b: Budget, l: Ledger, req: Request, n: nat)
    requires Honest(ps) && ValidPolicy(p) && b.strict && b.maxCompletion.Some? && req.maxTokens.Some? && l.completion <= b.maxCompletion.value
    ensures Chat(ps, p, b, l, req, n).ledger.completion <= b.maxCompletion.value
  {
    RouteHonest(ps, p, OrderedUnique([req.selected] + req.fallbacks, {}), req, n);
    hide Route, Honest, OrderedUnique;
  }

  /**
   If every request carries `max_tokens` and providers report no more completion
   tokens than that, completion usage never exceeds a strict completion limit,
   whatever retries and fallbacks happen on the way.
   */
  lemma {:induction false} CompletionNeverExceeds(ps: Providers, p: RetryPolicy, b: Budget, s: Session, reqs: seq<Request>)
    requires Honest(ps) && ValidPolicy(p) && b.strict && b.maxCompletion.Some? && s.ledger.completion <= b.maxCompletion.value
    requires forall r | r in reqs :: r.maxTokens.Some?
    ensures Chats(ps, p, b, s, reqs).ledger.completion <= b.maxCompletion.value
    decreases |reqs|
  {
    hide Chat, Honest;
    if reqs != [] {
      assert reqs[0] in reqs && forall r | r in reqs[1..] :: r in reqs;
      ChatBound(ps, p, b, s.ledger, reqs[0], |s.calls|);
      var r := Chat(ps, p, b, s.ledger, reqs[0], |s.calls|);
      CompletionNeverExceeds(ps, p, b, Session(r.ledger, s.calls + r.calls, s.outcomes + [r.outcome]), reqs[1..]);
    }
  }

  /** The ledger only grows. */
  lemma {:induction false} LedgerGrows(ps: Providers, p: RetryPolicy, b: Budget, s: Session, reqs: seq<Request>)
    requires ValidPolicy(p)
    ensures var l := Chats(ps, p, b, s, reqs).ledger;
            l.prompt >= s.ledger.prompt && l.completion >= s.ledger.completion && l.total >= s.ledger.total
    decreases |reqs|
  {
    if reqs != [] {
      var r := Chat(ps, p, b, s.ledger, reqs[0], |s.calls|);
      hide Route, OrderedUnique, RequestExceeds, Exceeded;
      LedgerGrows(ps, p, b, Session(r.ledger, s.calls + r.calls, s.outcomes + [r.outcome]), reqs[1..]);
    }
  }

  // ----- streams ---------------------------------------------------------

  datatype StreamedChat = StreamedChat(calls: seq<Call>, ledger: Ledger, outcome: ChatOutcome)

  /** The calls of a stream whose consumer took only `taken` chunks of the last one. */
  function Cut(calls: seq<Call>, taken: nat): seq<Call>
    requires calls != [] && taken <= |calls[|calls| - 1].yielded|
  {
    calls[|calls| - 1 := calls[|calls| - 1].(yielded := calls[|calls| - 1].yielded[..taken])]
  }

  /**
   `stream_chat` and its consumer: check, stream, charge the usage of the attempt
   that delivered, check again. A consumer that closes the stream after `taken`
   chunks leaves before the charge; one that takes none never calls a provider.
   */
  function StreamChat(w: World, p: RetryPolicy, b: Budget, l: Ledger, req: Request, n: nat, taken: Option<nat>): StreamedChat
    requires ValidPolicy(p)
  {
    var before := RequestExceeds(b, l, req.maxTokens);
    if before != [] && b.strict then StreamedChat([], l, BudgetExceeded(before))
    else if taken == Some(0) then StreamedChat([], l, LeftEarly)
    else
      var r := Stream(w, p, req.selected, req.fallbacks, n);
      if r.calls != [] && taken.Some? && taken.value <= |r.calls[|r.calls| - 1].yielded| then StreamedChat(Cut(r.calls, taken.value), l, LeftEarly)
      else
        match r.outcome
        case Failed(f) => StreamedChat(r.calls, l, ProviderFailed(f))
        case Finished =>
          var l' := if r.calls == [] then l else ApplyUsage(l, FinalUsage(r.calls[|r.calls| - 1].yielded));
          StreamedChat(r.calls, l', if Exceeded(b, l') != [] && b.strict then BudgetExceeded(Exceeded(b, l')) else Ok)
  }

  /**
   A stream is charged for what its consumer received and for nothing else: a
   failed stream, however many chunks it had sent, and one left before its end
   leave the ledger alone; one read to its end charges the usage its only
   delivering provider call reported.
   */
  lemma ChargesDelivered(w: World, p: RetryPolicy, b: Budget, l: Ledger, req: Request, n: nat, taken: Option<nat>)
    requires ValidPolicy(p)
    ensures var r := StreamChat(w, p, b, l, req, n, taken);
            if r.outcome.ProviderFailed? || r.outcome.LeftEarly? || r.calls == [] then r.ledger == l
            else
              var c := r.calls[|r.calls| - 1];
              && r.ledger == ApplyUsage(l, FinalUsage(Delivered(r.calls)))
              && r.ledger == ApplyUsage(l, FinalUsage(w.script(c.provider, c.number).chunks))
  {
    hide Stream, Exceeded, RequestExceeds, StampAll, FinalUsage, ApplyUsage;
    StreamsOneAttempt(w, p, req.selected, req.fallbacks, n);
    var r := Stream(w, p, req.selected, req.fallbacks, n);
    if r.outcome.Finished? {
      var c := r.calls[|r.calls| - 1];
      StampedUsage(w.script(c.provider, c.number).chunks, c.provider, w.model);
    }
  }

  /** Leaving early, a consumer has received exactly the first `taken` chunks of what it would have received. */
  lemma LeavingIsPrefix(w: World, p: RetryPolicy, b: Budget, l: Ledger, req: Request, n: nat, taken: nat)
    requires ValidPolicy(p) && StreamChat(w, p, b, l, req, n, Some(taken)).outcome.LeftEarly?
    ensures var all := Delivered(StreamChat(w, p, b, l, req, n, None).calls);
            taken <= |all| && Delivered(StreamChat(w, p, b, l, req, n, Some(taken)).calls) == all[..taken]
  {
    hide Stream, Exceeded, RequestExceeds, FinalUsage, ApplyUsage, OneAttempt;
    StreamsOneAttempt(w, p, req.selected, req.fallbacks, n);
    var r := Stream(w, p, req.selected, req.fallbacks, n);
    if taken > 0 { CutDelivers(w, r, n, taken); }
  }

  lemma CutDelivers(w: World, r: StreamRun, n: nat, taken: nat)
    requires OneAttempt(w, r, n) && r.calls != [] && taken <= |r.calls[|r.calls| - 1].yielded|
    ensures Delivered(Cut(r.calls, taken)) == r.calls[|r.calls| - 1].yielded[..taken]
  {
    hide StampAll;
    var k := |r.calls| - 1;
    var cs := Cut(r.calls, taken);
    assert cs == cs[..k] + [cs[k]];
    DeliveredConcat(cs[..k], [cs[k]]);
    assert forall c | c in cs[..k] :: c.yielded == [];
    DeliveredNothing(cs[..k]);
    assert [cs[k]][1..] == [];
  }

  // ----- streams side by side --------------------------------------------

  /** A runtime with opened streams that have not ended yet, each with the `max_tokens` of its request. */
  datatype Streams = Streams(ledger: Ledger, open: seq<Option<nat>>)

  /** `stream_chat` checks the budget when the stream is opened; None when it refuses. */
  function Open(b: Budget, s: Streams, maxTokens: Option<nat>): Option<Streams> {
    if RequestExceeds(b, s.ledger, maxTokens) != [] && b.strict then None else Some(s.(open := s.open + [maxTokens]))
  }

  /** A stream ends: its usage is charged, nothing if it failed or was left before its end. */
  function Close(s: Streams, i: nat, usage: Option<Usage>): Streams
    requires i < |s.open|
  {
    Streams(ApplyUsage(s.ledger, usage), s.open[..i] + s.open[i + 1..])
  }

  /** No more completion tokens than the request allowed. */
  predicate HonestUsage(maxTokens: Option<nat>, usage: Option<Usage>) {
    usage.Some? && maxTokens.Some? ==> Known(usage.value.completion) <= maxTokens.value
  }

  datatype StreamEnd = StreamEnd(i: nat, usage: Option<Usage>)

  predicate CanEnd(s: Streams, e: StreamEnd) { e.i < |s.open| && HonestUsage(s.open[e.i], e.usage) }

  /** Opened streams end one after the other; ends that cannot happen are skipped. */
  function Ends(s: Streams, es: seq<StreamEnd>): Streams
    decreases |es|
  {
    if es == [] then s else Ends(if CanEnd(s, es[0]) then Close(s, es[0].i, es[0].usage) else s, es[1..])
  }

  /** Whatever the opened streams honestly report, in whatever order they end, completion usage stays within the limit. */
  ghost predicate SafeFrom(limit: nat, s: Streams) {
    forall es :: Ends(s, es).ledger.completion <= limit
  }

  function Sum(open: seq<Option<nat>>): nat {
    if open == [] then 0 else Known(open[0]) + Sum(open[1..])
  }

  predicate AllBounded(open: seq<Option<nat>>) { forall o | o in open :: o.Some? }

  /** What is spent and what the opened streams may still spend fit the limit. */
  predicate Fits(limit: nat, s: Streams) {
    AllBounded(s.open) && s.ledger.completion + Sum(s.open) <= limit
  }

  lemma {:induction false} SumConcat(a: seq<Option<nat>>, b: seq<Option<nat>>)
    ensures Sum(a + b) == Sum(a) + Sum(b)
  {
    if a == [] {
      assert a + b == b;
    } else {
      assert (a + b)[1..] == a[1..] + b;
      SumConcat(a[1..], b);
    }
  }

  lemma SumWithout(open: seq<Option<nat>>, i: nat)
    requires i < |open|
    ensures Sum(open[..i] + open[i + 1..]) + Known(open[i]) == Sum(open)
  {
    SumConcat(open[..i], open[i + 1..]);
    SumConcat(open[..i], open[i..]);
    assert open[..i] + open[i..] == open && open[i..][0] == open[i] && open[i..][1..] == open[i + 1..];
  }

  lemma CloseFits(limit: nat, s: Streams, e: StreamEnd)
    requires Fits(limit, s) && CanEnd(s, e)
    ensures Fits(limit, Close(s, e.i, e.usage))
  {
    SumWithout(s.open, e.i);
    assert s.open[e.i] in s.open;
    assert forall o | o in s.open[..e.i] + s.open[e.i + 1..] :: o in s.open;
    hide Sum;
  }

  lemma {:induction false} EndsFit(limit: nat, s: Streams, es: seq<StreamEnd>)
    requires Fits(limit, s)
    ensures Fits(limit, Ends(s, es))
    decreases |es|
  {
    hide Fits, Close;
    if es != [] {
      if CanEnd(s, es[0]) { CloseFits(limit, s, es[0]); }
      EndsFit(limit, if CanEnd(s, es[0]) then Close(s, es[0].i, es[0].usage) else s, es[1..]);
    }
  }

  /** The streams can report all they may. */
  lemma {:induction false} AllReport(s: Streams) returns (es: seq<StreamEnd>)
    requires AllBounded(s.open)
    ensures Ends(s, es).ledger.completion == s.ledger.completion + Sum(s.open)
    decreases |s.open|
  {
    if s.open == [] {
      es := [];
    } else {
      assert s.open[0] in s.open && forall o | o in s.open[1..] :: o in s.open;
      var e := StreamEnd(0, Some(Usage(None, s.open[0], None)));
      var next := Close(s, 0, e.usage);
      assert next.open == s.open[1..] by { assert s.open[..0] + s.open[1..] == s.open[1..]; }
      var rest := AllReport(next);
      es := [e] + rest;
      assert es[1..] == rest && CanEnd(s, e);
    }
  }

  /** Safe means that spent and still spendable tokens fit, and that no opened stream is unbounded. */
  lemma SafeIff(limit: nat, s: Streams)
    ensures SafeFrom(limit, s) <==> Fits(limit, s)
  {
    if Fits(limit, s) {
      forall es ensures Ends(s, es).ledger.completion <= limit { EndsFit(limit, s, es); }
    } else if AllBounded(s.open) {
      var es := AllReport(s);
      assert Ends(s, es).ledger.completion > limit;
    } else {
      var i :| 0 <= i < |s.open| && s.open[i].None?;
      var es := [StreamEnd(i, Some(Usage(None, Some(limit + 1), None)))];
      assert es[1..] == [] && CanEnd(s, es[0]);
      assert Ends(s, es) == Close(s, i, es[0].usage);
      assert Ends(s, es).ledger.completion > limit;
    }
  }

  datatype StreamOp = DoOpen(maxTokens: Option<nat>) | DoEnd(end: StreamEnd)

  function StreamStep(b: Budget, s: Streams, op: StreamOp): Streams {
    match op
    case DoOpen(m) => Open(b, s, m).GetOr(s)
    case DoEnd(e) => if CanEnd(s, e) then Close(s, e.i, e.usage) else s
  }

  /** Every point of the run is safe. */
  ghost predicate SafeThroughout(limit: nat, b: Budget, s: Streams, ops: seq<StreamOp>)
    decreases |ops|
  {
    SafeFrom(limit, s) && (ops != [] ==> SafeThroughout(limit, b, StreamStep(b, s, ops[0]), ops[1..]))
  }

  /** At every accepted opening, what is spent, what the opened streams may spend and the new request's own limit fit. */
  predicate RoomThroughout(limit: nat, b: Budget, s: Streams, ops: seq<StreamOp>)
    decreases |ops|
  {
    ops != [] ==>
      && (ops[0].DoOpen? && Open(b, s, ops[0].maxTokens).Some? ==>
            ops[0].maxTokens.Some? && s.ledger.completion + Sum(s.open) + ops[0].maxTokens.value <= limit)
      && RoomThroughout(limit, b, StreamStep(b, s, ops[0]), ops[1..])
  }

  lemma OpenFits(limit: nat, s: Streams, m: Option<nat>)
    requires Fits(limit, s)
    ensures Fits(limit, s.(open := s.open + [m])) <==> m.Some? && s.ledger.completion + Sum(s.open) + m.value <= limit
  {
    SumConcat(s.open, [m]);
    assert [m][1..] == [] && m in s.open + [m];
    assert forall o | o in s.open :: o in s.open + [m];
  }

  /**
   Streams under a completion limit, exactly. Over every sequence of openings and
   ends, with any budget check, completion usage stays within the limit for all
   usages the streams may report if and only if at every accepted opening the
   ledger, the limits of the streams still open and that of the new one fit in it.
   */
  lemma {:induction false} StreamsWithinIff(limit: nat, b: Budget, s: Streams, ops: seq<StreamOp>)
    requires Fits(limit, s)
    ensures SafeThroughout(limit, b, s, ops) <==> RoomThroughout(limit, b, s, ops)
    decreases |ops|
  {
    hide Fits, SafeFrom, Close, CanEnd, Sum, RequestExceeds;
    SafeIff(limit, s);
    if ops != [] {
      var next := StreamStep(b, s, ops[0]);
      if ops[0].DoOpen? { OpenFits(limit, s, ops[0].maxTokens); }
      if ops[0].DoEnd? && CanEnd(s, ops[0].end) { CloseFits(limit, s, ops[0].end); }
      SafeIff(limit, next);
      if Fits(limit, next) { StreamsWithinIff(limit, b, next, ops[1..]); } else { assert !SafeThroughout(limit, b, next, ops[1..]); }
    }
  }

  /**
   What the check misses: under a strict completion limit an opening is accepted
   although it does not fit exactly when it would fit on its own and not beside
   the streams already open. With none open the check is exact.
   */
  lemma CheckMissesIff(limit: nat, s: Streams, m: nat)
    requires Fits(limit, s)
    ensures var b := Budget(None, Some(limit), None, true);
            && (Open(b, s, Some(m)).Some? && !Fits(limit, Open(b, s, Some(m)).value) <==>
                  s.ledger.completion + m <= limit < s.ledger.completion + Sum(s.open) + m)
            && (s.open == [] ==> (Open(b, s, Some(m)).Some? <==> Fits(limit, s.(open := [Some(m)]))))
  {
    OpenFits(limit, s, Some(m));
    assert s.open == [] ==> s.open + [Some(m)] == [Some(m)];
    hide Fits;
  }

  /** A stream and its consumer are one opening and one end: the same check, and the charge of what was delivered, if it was read to its end. */
  lemma StreamChatOpensAndEnds(w: World, p: RetryPolicy, b: Budget, l: Ledger, open: seq<Option<nat>>, req: Request, n: nat, taken: Option<nat>)
    requires ValidPolicy(p)
    ensures var r, started := StreamChat(w, p, b, l, req, n, taken), Open(b, Streams(l, open), req.maxTokens);
            if started.None? then r.calls == [] && r.ledger == l && r.outcome == BudgetExceeded(RequestExceeds(b, l, req.maxTokens))
            else
              var usage := if r.outcome.ProviderFailed? || r.outcome.LeftEarly? then None else FinalUsage(Delivered(r.calls));
              Close(started.value, |open|, usage) == Streams(r.ledger, open)
  {
    ChargesDelivered(w, p, b, l, req, n, taken);
    StreamsOneAttempt(w, p, req.selected, req.fallbacks, n);
    assert (open + [req.maxTokens])[..|open|] + (open + [req.maxTokens])[|open| + 1..] == open;
    hide Stream, Exceeded, RequestExceeds, FinalUsage, Delivered, OneAttempt;
    OneAttemptCalls(w, Stream(w, p, req.selected, req.fallbacks, n), n);
  }

  lemma OneAttemptCalls(w: World, r: StreamRun, n: nat)
    requires OneAttempt(w, r, n)
    ensures r.outcome.Finished? ==> r.calls != []
  {
  }
}
