/**
 The sliding-window restart budget of a supervisor. The clock is read twice per
 admitted group of restarts, once to prune and check, once to record.
 */
module RestartBudget {

  /** One crash that wants `attempts` restarts: when the budget was checked and when an admission was recorded. */
  datatype Request = Request(checked: real, recorded: real, attempts: nat)

  /** Entries at most `window` old. */
  function Prune(history: seq<real>, now: real, window: real): (r: seq<real>) {
    Recent(history, now - window)
  }

  function Recent(history: seq<real>, from: real): (r: seq<real>) {
    if history == [] then [] else (if history[0] >= from then [history[0]] else []) + Recent(history[1..], from)
  }

  function Stamps(t: real, n: nat): (r: seq<real>)
    ensures |r| == n && forall x | x in r :: x == t
  {
    seq(n, _ => t)
  }

  predicate Admitted(history: seq<real>, max: int, window: real, q: Request) {
    |Prune(history, q.checked, window)| + q.attempts <= max
  }

  /** The history a supervisor keeps after a run of requests; `max` is the latest request. */
  function History(run: seq<Request>, max: int, window: real): seq<real>
    decreases |run|
  {
    if run == [] then []
    else
      var q, before := run[|run| - 1], History(run[..|run| - 1], max, window);
      Prune(before, q.checked, window) + if Admitted(before, max, window, q) then Stamps(q.recorded, q.attempts) else []
  }

  /** Every admitted attempt of a run, never pruned. */
  function Log(run: seq<Request>, max: int, window: real): seq<real>
    decreases |run|
  {
    if run == [] then []
    else
      var q, earlier := run[|run| - 1], run[..|run| - 1];
      Log(earlier, max, window) + if Admitted(History(earlier, max, window), max, window, q) then Stamps(q.recorded, q.attempts) else []
  }

  /** The clock never runs backwards within or between requests. */
  predicate Monotone(run: seq<Request>) {
    && (forall i | 0 <= i < |run| :: run[i].checked <= run[i].recorded)
    && (forall i | 0 <= i < |run| - 1 :: run[i].recorded <= run[i + 1].checked)
  }

  function CountIn(log: seq<real>, from: real, to: real): nat {
    if log == [] then 0 else (if from <= log[0] <= to then 1 else 0) + CountIn(log[1..], from, to)
  }

  // ----- lists -----------------------------------------------------------

  lemma {:induction false} RecentConcat(a: seq<real>, b: seq<real>, from: real)
    ensures Recent(a + b, from) == Recent(a, from) + Recent(b, from)
  {
    if a == [] {
      assert a + b == b;
    } else {
      assert (a + b)[1..] == a[1..] + b;
      RecentConcat(a[1..], b, from);
    }
  }

  lemma {:induction false} RecentTwice(a: seq<real>, from: real, later: real)
    requires from <= later
    ensures Recent(Recent(a, from), later) == Recent(a, later)
  {
    if a != [] {
      RecentTwice(a[1..], from, later);
      assert [] + Recent(a[1..], from) == Recent(a[1..], from);
      assert [] + Recent(a[1..], later) == Recent(a[1..], later);
      if a[0] >= from { assert ([a[0]] + Recent(a[1..], from))[1..] == Recent(a[1..], from); }
    }
  }

  lemma {:induction false} RecentAll(a: seq<real>, from: real)
    requires forall x | x in a :: x >= from
    ensures Recent(a, from) == a
  {
    if a != [] {
      assert a[0] in a && forall x | x in a[1..] :: x in a;
      RecentAll(a[1..], from);
    }
  }

  lemma {:induction false} CountConcat(a: seq<real>, b: seq<real>, from: real, to: real)
    ensures CountIn(a + b, from, to) == CountIn(a, from, to) + CountIn(b, from, to)
  {
    if a == [] {
      assert a + b == b;
    } else {
      assert (a + b)[1..] == a[1..] + b;
      CountConcat(a[1..], b, from, to);
    }
  }

  /** An interval that starts no earlier than `from` holds no more entries than the recent ones. */
  lemma {:induction false} CountRecent(a: seq<real>, from: real, start: real, to: real)
    requires from <= start
    ensures CountIn(a, start, to) <= |Recent(a, from)|
  {
    if a != [] { CountRecent(a[1..], from, start, to); }
  }

  lemma {:induction false} CountStamps(t: real, n: nat, from: real, to: real)
    ensures CountIn(Stamps(t, n), from, to) == if from <= t <= to then n else 0
  {
    if n > 0 {
      assert Stamps(t, n)[1..] == Stamps(t, n - 1);
      CountStamps(t, n - 1, from, to);
    }
  }

  // ----- the bound -------------------------------------------------------

  lemma MonotonePrefix(run: seq<Request>)
    requires Monotone(run) && run != []
    ensures Monotone(run[..|run| - 1])
  {
    var p := run[..|run| - 1];
    assert forall i | 0 <= i < |p| :: p[i] == run[i];
  }

  /** The pruned history is the unpruned log cut at the last check. */
  lemma {:induction false} HistoryIsRecentLog(run: seq<Request>, max: int, window: real)
    requires Monotone(run) && run != [] && window >= 0.0
    ensures History(run, max, window) == Recent(Log(run, max, window), run[|run| - 1].checked - window)
    decreases |run|
  {
    var q, earlier := run[|run| - 1], run[..|run| - 1];
    var from := q.checked - window;
    MonotonePrefix(run);
    if earlier != [] {
      HistoryIsRecentLog(earlier, max, window);
      RecentTwice(Log(earlier, max, window), earlier[|earlier| - 1].checked - window, from);
    }
    var added := if Admitted(History(earlier, max, window), max, window, q) then Stamps(q.recorded, q.attempts) else [];
    RecentConcat(Log(earlier, max, window), added, from);
    RecentAll(added, from);
  }

  /**
   Restart-rate bound. Over any run with a monotone clock, no closed interval of
   the window's length contains more than `max` admitted restart attempts, even
   though the history is pruned and the clock is read again when recording.
   */
  lemma {:induction false} RestartRate(run: seq<Request>, max: int, window: real, start: real)
    requires Monotone(run) && window >= 0.0 && max >= 0
    ensures CountIn(Log(run, max, window), start, start + window) <= max
    decreases |run|
  {
    if run != [] {
      var q, earlier := run[|run| - 1], run[..|run| - 1];
      var log, history := Log(earlier, max, window), History(earlier, max, window);
      MonotonePrefix(run);
      RestartRate(earlier, max, window, start);
      CountConcat(log, if Admitted(history, max, window, q) then Stamps(q.recorded, q.attempts) else [], start, start + window);
      CountStamps(q.recorded, q.attempts, start, start + window);
      if Admitted(history, max, window, q) && start <= q.recorded <= start + window {
        if earlier != [] {
          HistoryIsRecentLog(earlier, max, window);
          RecentTwice(log, earlier[|earlier| - 1].checked - window, q.checked - window);
        }
        CountRecent(log, q.checked - window, start, start + window);
      }
    }
  }

  /** The budget fields of a supervisor's record. */
  class Budget {
    const maxRestarts: int
    const window: real
    var history: seq<real>
    var restartCount: nat

    constructor (maxRestarts: int, window: real)
      ensures this.maxRestarts == maxRestarts && this.window == window && history == [] && restartCount == 0
    {
      this.maxRestarts, this.window, history, restartCount := maxRestarts, window, [], 0;
    }

    /** Drops entries older than the window, then compares. */
    method RestartBudgetAllows(now: real, attempts: nat) returns (ok: bool)
      modifies `history
      ensures history == Prune(old(history), now, window)
      ensures ok <==> |history| + attempts <= maxRestarts
    {
      var kept: seq<real> := [];
      assert history[0..] == history;
      for i := 0 to |history|
        invariant history == old(history)
        invariant Prune(history, now, window) == kept + Prune(history[i..], now, window)
      {
        assert history[i..][0] == history[i] && history[i..][1..] == history[i + 1..];
        if now - history[i] <= window { kept := kept + [history[i]]; }
      }
      assert history[|history|..] == [];
      history := kept;
      ok := |history| + attempts <= maxRestarts;
    }

    /** Every interval that contains `now` gains exactly the admitted attempts, every other one nothing. */
    method RecordRestartAttempts(now: real, attempts: nat)
      modifies `history, `restartCount
      ensures history == old(history) + Stamps(now, attempts) && restartCount == old(restartCount) + attempts
      ensures forall from, to :: CountIn(history, from, to) == CountIn(old(history), from, to) + if from <= now <= to then attempts else 0
    {
      forall from, to
        ensures CountIn(history + Stamps(now, attempts), from, to) == CountIn(history, from, to) + if from <= now <= to then attempts else 0
      {
        CountConcat(history, Stamps(now, attempts), from, to);
        CountStamps(now, attempts, from, to);
      }
      history := history + Stamps(now, attempts);
      restartCount := restartCount + attempts;
    }

    /** One request of the crash handler: the object's history follows the specification's run. */
    method Handle(q: Request, ghost run: seq<Request>) returns (ok: bool)
      requires history == History(run, maxRestarts, window)
      modifies this
      ensures history == History(run + [q], maxRestarts, window)
      ensures ok <==> Admitted(old(history), maxRestarts, window, q)
      ensures restartCount == old(restartCount) + if ok then q.attempts else 0
    {
      assert (run + [q])[..|run + [q]| - 1] == run;
      ok := RestartBudgetAllows(q.checked, q.attempts);
      if ok { RecordRestartAttempts(q.recorded, q.attempts); }
    }
  }
}
