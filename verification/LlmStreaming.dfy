/**
 Streaming with retries inside fallbacks. Providers are scripted: the n-th call
 of a run finds the n-th script, so a provider may behave differently every time.
 */
module LlmStreaming {
  import opened Prelude
  import opened LlmTypes

  datatype Chunk = Chunk(delta: string, index: nat, provider: Option<string>, model: Option<string>, done: bool, usage: Option<Usage>)

  /** A failed call: its error category and whether it is an `LLMProviderError`. */
  datatype Failure = Failure(category: string, providerError: bool)

  /** What one streaming call does: all its chunks, or the first `sent` of them and then a failure. */
  datatype Script = Script(chunks: seq<Chunk>, failure: Option<Failure>, sent: nat)

  datatype RetryPolicy = RetryPolicy(maxAttempts: nat, retryOn: set<string>, backoff: real, maxBackoff: Option<real>)

  datatype World = World(script: (string, nat) -> Script, streams: string -> bool, model: string)

  /** One call to a provider: what was yielded from it and how long the runtime slept after it. */
  datatype Call = Call(provider: string, number: nat, yielded: seq<Chunk>, slept: real)

  datatype Outcome = Finished | Failed(failure: Failure)

  datatype StreamRun = StreamRun(calls: seq<Call>, outcome: Outcome)

  // ----- the retry policy ------------------------------------------------

  function Pow2(n: nat): (r: real)
    ensures r >= 1.0
  {
    if n == 0 then 1.0 else 2.0 * Pow2(n - 1)
  }

  /** `_retry_backoff`: doubled after every failed attempt, up to the cap. */
  function RetryBackoff(p: RetryPolicy, failedAttempt: nat): real
    requires failedAttempt >= 1
  {
    var b := p.backoff * Pow2(failedAttempt - 1);
    if p.maxBackoff.Some? && p.maxBackoff.value < b then p.maxBackoff.value else b
  }

  predicate Retryable(p: RetryPolicy, category: string) {
    category != "configuration" && category in p.retryOn
  }

  /** The policy's constructor rejects anything else. */
  predicate ValidPolicy(p: RetryPolicy) {
    p.maxAttempts >= 1 && p.backoff >= 0.0 && (p.maxBackoff.Some? ==> p.maxBackoff.value >= 0.0)
  }

  function Interrupted(): string { "stream_interrupted" }

  // ----- one call --------------------------------------------------------

  function Stamp(c: Chunk, provider: string, model: string): Chunk {
    c.(provider := Some(if c.provider.Some? && c.provider.value != "" then c.provider.value else provider),
       model := Some(if c.model.Some? && c.model.value != "" then c.model.value else model))
  }

  function StampAll(cs: seq<Chunk>, provider: string, model: string): (r: seq<Chunk>)
    ensures |r| == |cs| && forall i | 0 <= i < |cs| :: r[i] == Stamp(cs[i], provider, model)
  {
    seq(|cs|, i requires 0 <= i < |cs| => Stamp(cs[i], provider, model))
  }

  /** The chunks a call delivers before it ends or fails. */
  function Sent(s: Script): seq<Chunk> {
    if s.failure.None? || s.sent > |s.chunks| then s.chunks else s.chunks[..s.sent]
  }

  // ----- retries ---------------------------------------------------------

  /** `_stream_provider_with_retries` from the given attempt on; `n` calls were made before it. */
  function Retries(w: World, p: RetryPolicy, provider: string, attempt: nat, n: nat): StreamRun
    requires 1 <= attempt <= p.maxAttempts
    decreases p.maxAttempts - attempt
  {
    var s := w.script(provider, n);
    var out := StampAll(Sent(s), provider, w.model);
    if s.failure.None? then StreamRun([Call(provider, n, out, 0.0)], Finished)
    else if out != [] then StreamRun([Call(provider, n, out, 0.0)], Failed(Failure(Interrupted(), true)))
    else if !Retryable(p, s.failure.value.category) || attempt >= p.maxAttempts then StreamRun([Call(provider, n, [], 0.0)], Failed(s.failure.value))
    else
      var rest := Retries(w, p, provider, attempt + 1, n + 1);
      StreamRun([Call(provider, n, [], RetryBackoff(p, attempt))] + rest.calls, rest.outcome)
  }

  function StreamProvider(w: World, p: RetryPolicy, provider: string, n: nat): StreamRun
    requires ValidPolicy(p)
  {
    if !w.streams(provider) then StreamRun([], Failed(Failure("unsupported", true)))
    else Retries(w, p, provider, 1, n)
  }

  /** After which failures the next provider is tried. */
  predicate FallsBack(p: RetryPolicy, f: Failure) {
    f.category != Interrupted() && (f.providerError || Retryable(p, f.category))
  }

  /** `_stream_with_routing` over the remaining providers. */
  function Routing(w: World, p: RetryPolicy, providers: seq<string>, n: nat): StreamRun
    requires ValidPolicy(p) && providers != []
    decreases |providers|
  {
    var here := StreamProvider(w, p, providers[0], n);
    if here.outcome.Failed? && |providers| > 1 && FallsBack(p, here.outcome.failure) then
      var rest := Routing(w, p, providers[1..], n + |here.calls|);
      StreamRun(here.calls + rest.calls, rest.outcome)
    else StreamRun(here.calls, Surfaced(here.outcome))
  }

  /** What the consumer sees of the failure that ends a stream: a provider error of the same category. */
  function Surfaced(o: Outcome): Outcome {
    if o.Failed? then Failed(Failure(o.failure.category, true)) else o
  }

  /** `_ordered_unique`: first occurrences, in order. */
  function OrderedUnique(names: seq<string>, seen: set<string>): (r: seq<string>)
    ensures (forall x :: x in r <==> x in names && x !in seen) && Distinct(r)
  {
    if names == [] then []
    else if names[0] in seen then OrderedUnique(names[1..], seen)
    else
      var rest := OrderedUnique(names[1..], seen + {names[0]});
      assert forall i | 0 <= i < |rest| :: rest[i] in rest;
      [names[0]] + rest
  }

  /** `stream_chat`: the selected provider first, then the fallbacks; `n` calls were made before it. */
  function Stream(w: World, p: RetryPolicy, selected: string, fallbacks: seq<string>, n: nat): StreamRun
    requires ValidPolicy(p)
  {
    Routing(w, p, OrderedUnique([selected] + fallbacks, {}), n)
  }

  // ----- delivery --------------------------------------------------------

  /** Everything the consumer received. */
  function Delivered(calls: seq<Call>): seq<Chunk> {
    if calls == [] then [] else calls[0].yielded + Delivered(calls[1..])
  }

  /**
   Only the last call yielded anything, and what it yielded is a prefix of its
   own chunk list: the whole list when the stream ended normally.
   */
  predicate OneAttempt(w: World, r: StreamRun, n: nat) {
    && (forall i | 0 <= i < |r.calls| :: r.calls[i].number == n + i)
    && (forall i | 0 <= i < |r.calls| - 1 :: r.calls[i].yielded == [])
    && (r.outcome.Finished? ==> r.calls != [])
    && (r.calls != [] ==>
          var c := r.calls[|r.calls| - 1];
          var all := StampAll(w.script(c.provider, c.number).chunks, c.provider, w.model);
          c.yielded <= all && (r.outcome.Finished? ==> c.yielded == all)
          && (c.yielded != [] && r.outcome.Failed? ==> r.outcome.failure.category == Interrupted()))
  }

  lemma StampPrefix(s: Script, provider: string, model: string)
    ensures StampAll(Sent(s), provider, model) <= StampAll(s.chunks, provider, model)
    ensures s.failure.None? ==> StampAll(Sent(s), provider, model) == StampAll(s.chunks, provider, model)
  {
  }

  lemma {:induction false} RetriesOnce(w: World, p: RetryPolicy, provider: string, attempt: nat, n: nat)
    requires 1 <= attempt <= p.maxAttempts
    ensures var r := Retries(w, p, provider, attempt, n);
            && OneAttempt(w, r, n) && 1 <= |r.calls| <= p.maxAttempts - attempt + 1
            && forall c | c in r.calls :: c.provider == provider
    decreases p.maxAttempts - attempt
  {
    hide Retryable, StampAll, Sent, Interrupted, OneAttempt;
    RetriesTurn(w, p, provider, attempt, n);
    OneCall(w, provider, n);
    if RetriesOn(w, p, provider, attempt, n) {
      RetriesOnce(w, p, provider, attempt + 1, n + 1);
      ConsCalls(w, Call(provider, n, [], RetryBackoff(p, attempt)), Retries(w, p, provider, attempt + 1, n + 1), n);
    }
  }

  /** The call yielded nothing, its failure is retryable and attempts are left. */
  predicate RetriesOn(w: World, p: RetryPolicy, provider: string, attempt: nat, n: nat) {
    var s := w.script(provider, n);
    s.failure.Some? && Sent(s) == [] && Retryable(p, s.failure.value.category) && attempt < p.maxAttempts
  }

  /** How a call that is not retried ends. */
  function CallOutcome(s: Script): Outcome {
    if s.failure.None? then Finished else if Sent(s) != [] then Failed(Failure(Interrupted(), true)) else Failed(s.failure.value)
  }

  lemma RetriesTurn(w: World, p: RetryPolicy, provider: string, attempt: nat, n: nat)
    requires 1 <= attempt <= p.maxAttempts
    ensures var s := w.script(provider, n);
            Retries(w, p, provider, attempt, n) ==
              if RetriesOn(w, p, provider, attempt, n) then
                var rest := Retries(w, p, provider, attempt + 1, n + 1);
                StreamRun([Call(provider, n, [], RetryBackoff(p, attempt))] + rest.calls, rest.outcome)
              else StreamRun([Call(provider, n, StampAll(Sent(s), provider, w.model), 0.0)], CallOutcome(s))
  {
    hide Retryable, Sent, Interrupted, RetryBackoff;
    var s := w.script(provider, n);
    assert Sent(s) == [] <==> StampAll(Sent(s), provider, w.model) == [];
  }

  lemma OneCall(w: World, provider: string, n: nat)
    ensures var s := w.script(provider, n);
            OneAttempt(w, StreamRun([Call(provider, n, StampAll(Sent(s), provider, w.model), 0.0)], CallOutcome(s)), n)
  {
    var s := w.script(provider, n);
    StampPrefix(s, provider, w.model);
    assert Sent(s) == [] ==> StampAll(Sent(s), provider, w.model) == [];
    hide Sent, StampAll, Interrupted;
  }

  /** Putting a call that yielded nothing in front. */
  lemma ConsCalls(w: World, c: Call, rest: StreamRun, n: nat)
    requires c.number == n && c.yielded == [] && OneAttempt(w, rest, n + 1) && rest.calls != []
    ensures OneAttempt(w, StreamRun([c] + rest.calls, rest.outcome), n)
  {
    var all := [c] + rest.calls;
    forall i | 0 <= i < |all| ensures all[i].number == n + i { if i > 0 { assert all[i] == rest.calls[i - 1]; } }
    forall i | 0 <= i < |all| - 1 ensures all[i].yielded == [] { if i > 0 { assert all[i] == rest.calls[i - 1]; } }
    assert all[|all| - 1] == rest.calls[|rest.calls| - 1];
  }

  /** A provider that is followed by another one yielded nothing. */
  lemma JoinCalls(w: World, here: StreamRun, rest: StreamRun, n: nat)
    requires OneAttempt(w, here, n) && OneAttempt(w, rest, n + |here.calls|)
    requires here.outcome.Failed? && here.outcome.failure.category != Interrupted()
    ensures OneAttempt(w, StreamRun(here.calls + rest.calls, rest.outcome), n)
  {
    hide Interrupted, StampAll;
    var all := here.calls + rest.calls;
    forall i | 0 <= i < |all| ensures all[i].number == n + i {
      if i >= |here.calls| { assert all[i] == rest.calls[i - |here.calls|]; }
    }
    forall i | 0 <= i < |all| - 1 ensures all[i].yielded == [] {
      if i >= |here.calls| { assert all[i] == rest.calls[i - |here.calls|]; }
    }
    if rest.calls != [] { assert all[|all| - 1] == rest.calls[|rest.calls| - 1]; } else { assert all == here.calls; }
  }

  lemma {:induction false} RoutingOnce(w: World, p: RetryPolicy, providers: seq<string>, n: nat)
    requires ValidPolicy(p) && providers != []
    ensures OneAttempt(w, Routing(w, p, providers, n), n)
    decreases |providers|
  {
    hide *;
    var here, names := StreamProvider(w, p, providers[0], n), providers[1..];
    ProviderOnce(w, p, providers[0], n);
    RoutingTurn(w, p, providers, n);
    FallsBackOpen(p, here);
    if here.outcome.Failed? && names != [] && FallsBack(p, here.outcome.failure) {
      RoutingOnce(w, p, names, n + |here.calls|);
      var rest := Routing(w, p, names, n + |here.calls|);
      JoinCalls(w, here, rest, n);
      assert Routing(w, p, providers, n) == StreamRun(here.calls + rest.calls, rest.outcome);
    } else {
      SurfacedOnce(w, here, n);
    }
  }

  lemma SurfacedOnce(w: World, r: StreamRun, n: nat)
    requires OneAttempt(w, r, n)
    ensures OneAttempt(w, StreamRun(r.calls, Surfaced(r.outcome)), n)
  {
    hide StampAll, Interrupted;
  }

  lemma FallsBackOpen(p: RetryPolicy, r: StreamRun)
    ensures r.outcome.Failed? && FallsBack(p, r.outcome.failure) ==> r.outcome.failure.category != Interrupted()
  {
    hide Interrupted, Retryable;
  }

  lemma ProviderOnce(w: World, p: RetryPolicy, provider: string, n: nat)
    requires ValidPolicy(p)
    ensures OneAttempt(w, StreamProvider(w, p, provider, n), n)
  {
    if w.streams(provider) { RetriesOnce(w, p, provider, 1, n); }
    hide Retries, Interrupted, StampAll;
  }

  lemma {:induction false} DeliveredNothing(calls: seq<Call>)
    requires forall c | c in calls :: c.yielded == []
    ensures Delivered(calls) == []
  {
    if calls != [] {
      assert calls[0] in calls && forall c | c in calls[1..] :: c in calls;
      DeliveredNothing(calls[1..]);
    }
  }

  lemma {:induction false} DeliveredConcat(a: seq<Call>, b: seq<Call>)
    ensures Delivered(a + b) == Delivered(a) + Delivered(b)
  {
    if a == [] {
      assert a + b == b;
    } else {
      assert (a + b)[1..] == a[1..] + b;
      DeliveredConcat(a[1..], b);
    }
  }

  /**
   Streaming delivers one attempt only. Across all retries and fallbacks what the
   consumer received is a prefix of the chunk list of the last call alone, every
   earlier call yielded nothing, and a normal end means that call's whole list.
   */
  lemma StreamsOneAttempt(w: World, p: RetryPolicy, selected: string, fallbacks: seq<string>, n: nat)
    requires ValidPolicy(p)
    ensures var r := Stream(w, p, selected, fallbacks, n);
            && OneAttempt(w, r, n)
            && Delivered(r.calls) == (if r.calls == [] then [] else r.calls[|r.calls| - 1].yielded)
  {
    RoutingOnce(w, p, OrderedUnique([selected] + fallbacks, {}), n);
    var cs := Stream(w, p, selected, fallbacks, n).calls;
    if cs != [] {
      var k := |cs| - 1;
      assert cs == cs[..k] + [cs[k]];
      DeliveredConcat(cs[..k], [cs[k]]);
      assert forall c | c in cs[..k] :: c.yielded == [];
      DeliveredNothing(cs[..k]);
      assert [cs[k]][1..] == [];
    }
  }

  /** The usage a list of chunks reports: that of its last final chunk that has one. */
  function FinalUsage(cs: seq<Chunk>): Option<Usage>
    decreases |cs|
  {
    if cs == [] then None
    else
      var k := |cs| - 1;
      if cs[k].done && cs[k].usage.Some? then cs[k].usage else FinalUsage(cs[..k])
  }

  lemma {:induction false} StampedUsage(cs: seq<Chunk>, provider: string, model: string)
    ensures FinalUsage(StampAll(cs, provider, model)) == FinalUsage(cs)
    decreases |cs|
  {
    if cs != [] {
      var k := |cs| - 1;
      assert StampAll(cs, provider, model)[..k] == StampAll(cs[..k], provider, model);
      StampedUsage(cs[..k], provider, model);
    }
  }

  // ----- bounds ----------------------------------------------------------

  /** Total time the runtime slept between calls to one provider. */
  function SleptFor(calls: seq<Call>, provider: string): real {
    if calls == [] then 0.0 else (if calls[0].provider == provider then calls[0].slept else 0.0) + SleptFor(calls[1..], provider)
  }

  lemma {:induction false} SleptConcat(a: seq<Call>, b: seq<Call>, provider: string)
    ensures SleptFor(a + b, provider) == SleptFor(a, provider) + SleptFor(b, provider)
  {
    if a == [] {
      assert a + b == b;
    } else {
      assert (a + b)[1..] == a[1..] + b;
      SleptConcat(a[1..], b, provider);
    }
  }

  lemma {:induction false} SleptElsewhere(calls: seq<Call>, provider: string)
    requires forall c | c in calls :: c.provider != provider
    ensures SleptFor(calls, provider) == 0.0
  {
    if calls != [] {
      assert calls[0] in calls && forall c | c in calls[1..] :: c in calls;
      SleptElsewhere(calls[1..], provider);
    }
  }

  /** The sleeps that can still come from an attempt on, without the cap. */
  function SleepLeft(p: RetryPolicy, attempt: nat): real
    requires 1 <= attempt <= p.maxAttempts
    decreases p.maxAttempts - attempt
  {
    if attempt == p.maxAttempts then 0.0 else p.backoff * Pow2(attempt - 1) + SleepLeft(p, attempt + 1)
  }

  /** The doubling sum: backoff * (2^(max-1) - 2^(attempt-1)). */
  lemma {:induction false} SleepLeftSum(p: RetryPolicy, attempt: nat)
    requires ValidPolicy(p) && 1 <= attempt <= p.maxAttempts
    ensures SleepLeft(p, attempt) == p.backoff * Pow2(p.maxAttempts - 1) - p.backoff * Pow2(attempt - 1) >= 0.0
    decreases p.maxAttempts - attempt
  {
    if attempt < p.maxAttempts {
      SleepLeftSum(p, attempt + 1);
      var a := Pow2(attempt - 1);
      assert Pow2(attempt) == 2.0 * a;
      DoubleProduct(p.backoff, a);
    }
  }

  lemma DoubleProduct(x: real, a: real)
    requires x >= 0.0 && a >= 1.0
    ensures x * (2.0 * a) == x * a + x * a && x * a >= 0.0
  {
  }

  lemma {:induction false} RetriesSleep(w: World, p: RetryPolicy, provider: string, attempt: nat, n: nat)
    requires ValidPolicy(p) && 1 <= attempt <= p.maxAttempts
    ensures SleptFor(Retries(w, p, provider, attempt, n).calls, provider) <= SleepLeft(p, attempt)
    decreases p.maxAttempts - attempt
  {
    hide *;
    RetriesTurn(w, p, provider, attempt, n);
    SleepLeftTurn(p, attempt);
    if RetriesOn(w, p, provider, attempt, n) {
      AttemptsLeft(w, p, provider, attempt, n);
      RetriesSleep(w, p, provider, attempt + 1, n + 1);
      FirstSlept(Call(provider, n, [], RetryBackoff(p, attempt)), Retries(w, p, provider, attempt + 1, n + 1).calls, provider);
    } else {
      FirstSlept(Call(provider, n, StampAll(Sent(w.script(provider, n)), provider, w.model), 0.0), [], provider);
    }
  }

  lemma AttemptsLeft(w: World, p: RetryPolicy, provider: string, attempt: nat, n: nat)
    requires RetriesOn(w, p, provider, attempt, n)
    ensures attempt < p.maxAttempts
  {
    hide Retryable, Sent;
  }

  lemma SleepLeftTurn(p: RetryPolicy, attempt: nat)
    requires ValidPolicy(p) && 1 <= attempt <= p.maxAttempts
    ensures SleepLeft(p, attempt) >= 0.0
    ensures attempt < p.maxAttempts ==> SleepLeft(p, attempt) >= RetryBackoff(p, attempt) + SleepLeft(p, attempt + 1)
  {
    SleepLeftSum(p, attempt);
    hide Pow2;
  }

  lemma FirstSlept(c: Call, rest: seq<Call>, provider: string)
    requires c.provider == provider
    ensures SleptFor([c] + rest, provider) == c.slept + SleptFor(rest, provider)
    ensures SleptFor([c], provider) == c.slept
  {
    assert ([c] + rest)[1..] == rest && [c][1..] == [];
  }

  predicate CallsOnly(calls: seq<Call>, names: seq<string>) { forall c | c in calls :: c.provider in names }

  /** One provider of the route. */
  lemma ProviderCount(w: World, p: RetryPolicy, name: string, n: nat)
    requires ValidPolicy(p)
    ensures var calls := StreamProvider(w, p, name, n).calls;
            |calls| <= p.maxAttempts && CallsOnly(calls, [name])
  {
    if w.streams(name) { RetriesOnce(w, p, name, 1, n); }
    hide Retries, OneAttempt, Interrupted;
  }

  lemma ProviderSleeps(w: World, p: RetryPolicy, name: string, n: nat, provider: string)
    requires ValidPolicy(p)
    ensures SleptFor(StreamProvider(w, p, name, n).calls, provider) <= if provider == name then SleepLeft(p, 1) else 0.0
    ensures SleepLeft(p, 1) >= 0.0
  {
    SleepLeftSum(p, 1);
    if w.streams(name) { RetriesSleep(w, p, name, 1, n); }
    ProviderCount(w, p, name, n);
    hide Retries, SleepLeft, Interrupted, Pow2;
    if provider != name { SleptElsewhere(StreamProvider(w, p, name, n).calls, provider); }
  }

  predicate Distinct(names: seq<string>) { forall i, j | 0 <= i < j < |names| :: names[i] != names[j] }

  lemma DistinctTail(names: seq<string>)
    requires names != [] && Distinct(names)
    ensures names[0] !in names[1..] && Distinct(names[1..])
  {
  }

  lemma NoneOnly(names: seq<string>)
    ensures CallsOnly([], names)
  {
  }

  lemma OnlyJoin(a: seq<Call>, b: seq<Call>, names: seq<string>)
    requires names != [] && CallsOnly(a, [names[0]]) && CallsOnly(b, names[1..])
    ensures CallsOnly(a + b, names)
  {
    assert forall x | x in names[1..] :: x in names;
  }

  /** At most `maxAttempts` calls per provider of the route, and to no other. */
  lemma {:induction false} RoutingCount(w: World, p: RetryPolicy, providers: seq<string>, n: nat)
    requires ValidPolicy(p) && providers != []
    ensures var calls := Routing(w, p, providers, n).calls;
            |calls| <= p.maxAttempts * |providers| && CallsOnly(calls, providers)
    decreases |providers|
  {
    hide *;
    NoneOnly(providers[1..]);
    var here, names := StreamProvider(w, p, providers[0], n), providers[1..];
    ProviderCount(w, p, providers[0], n);
    RoutingTurn(w, p, providers, n);
    Product(p.maxAttempts, |providers|);
    if here.outcome.Failed? && names != [] && FallsBack(p, here.outcome.failure) {
      RoutingCount(w, p, names, n + |here.calls|);
      OnlyJoin(here.calls, Routing(w, p, names, n + |here.calls|).calls, providers);
    } else {
      OnlyJoin(here.calls, [], providers);
      assert here.calls + [] == here.calls;
    }
  }

  lemma {:induction false} RoutingSleeps(w: World, p: RetryPolicy, providers: seq<string>, n: nat, provider: string)
    requires ValidPolicy(p) && providers != [] && Distinct(providers)
    ensures SleptFor(Routing(w, p, providers, n).calls, provider) <= SleepLeft(p, 1)
    decreases |providers|
  {
    hide *;
    SomeAttempts(p);
    var here, names := StreamProvider(w, p, providers[0], n), providers[1..];
    ProviderSleeps(w, p, providers[0], n, provider);
    DistinctTail(providers);
    RoutingTurn(w, p, providers, n);
    if here.outcome.Failed? && names != [] && FallsBack(p, here.outcome.failure) {
      var r := Routing(w, p, names, n + |here.calls|);
      SleptConcat(here.calls, r.calls, provider);
      RoutingSleeps(w, p, names, n + |here.calls|, provider);
      if provider == providers[0] {
        RoutingCount(w, p, names, n + |here.calls|);
        SleptOutside(r.calls, names, providers[0]);
      }
    }
  }

  lemma SleptOutside(calls: seq<Call>, names: seq<string>, provider: string)
    requires CallsOnly(calls, names) && provider !in names
    ensures SleptFor(calls, provider) == 0.0
  {
    SleptElsewhere(calls, provider);
  }

  lemma SomeAttempts(p: RetryPolicy)
    requires ValidPolicy(p)
    ensures p.maxAttempts >= 1
  {
  }

  lemma RoutingTurn(w: World, p: RetryPolicy, providers: seq<string>, n: nat)
    requires ValidPolicy(p) && providers != []
    ensures var here := StreamProvider(w, p, providers[0], n);
            Routing(w, p, providers, n) ==
              if here.outcome.Failed? && providers[1..] != [] && FallsBack(p, here.outcome.failure) then
                var rest := Routing(w, p, providers[1..], n + |here.calls|);
                StreamRun(here.calls + rest.calls, rest.outcome)
              else StreamRun(here.calls, Surfaced(here.outcome))
  {
    hide StreamProvider, FallsBack;
    assert providers[1..] != [] <==> |providers| > 1;
  }

  lemma Product(m: nat, k: nat)
    requires k > 0
    ensures m * k == m + m * (k - 1) && m <= m * k
  {
  }

  /**
   Bounds of a stream: at most `max_attempts` calls per distinct provider, and
   for each provider at most backoff times (2^(max_attempts - 1) - 1) of sleep.
   */
  lemma StreamBounds(w: World, p: RetryPolicy, selected: string, fallbacks: seq<string>, n: nat, provider: string)
    requires ValidPolicy(p)
    ensures var names, calls := OrderedUnique([selected] + fallbacks, {}), Stream(w, p, selected, fallbacks, n).calls;
            && |calls| <= p.maxAttempts * |names|
            && (forall c | c in calls :: c.provider == selected || c.provider in fallbacks)
            && SleptFor(calls, provider) <= p.backoff * (Pow2(p.maxAttempts - 1) - 1.0)
  {
    var names := OrderedUnique([selected] + fallbacks, {});
    RoutingCount(w, p, names, n);
    RoutingSleeps(w, p, names, n, provider);
    SleepLeftSum(p, 1);
    assert Pow2(0) == 1.0;
    var top := Pow2(p.maxAttempts - 1);
    hide Distinct, Routing, SleepLeft, SleptFor, Pow2, OrderedUnique;
    Distribute(p.backoff, top);
    forall c | c in Stream(w, p, selected, fallbacks, n).calls ensures c.provider == selected || c.provider in fallbacks {
      assert c.provider in names && c.provider in [selected] + fallbacks;
    }
  }

  lemma Distribute(x: real, y: real)
    ensures x * (y - 1.0) == x * y - x * 1.0
  {
  }
}
