/**
 The page table of one agent: a cached count of active tokens, page-out of the
 oldest active pages, and evicted copies handed out to the caller.
 */
module PageTable {
  import opened Prelude

  /** `build_page_id`: the index makes it unique within the table. */
  datatype PageId = PageId(millis: nat, index: nat)

  datatype Content = Text(s: string) | Stub(id: PageId, tokens: nat)

  datatype Page = Page(id: PageId, timestamp: nat, tokens: nat, content: Content, pagedOut: bool)

  /**
   `taken` collects what `take_evicted_pages` returned and `written` the content
   last written to each page; the program keeps neither.
   */
  datatype Table = Table(max: nat, current: nat, pages: seq<Page>, pending: seq<Page>, taken: seq<Page>, written: seq<string>)

  function SaturatingSub(a: nat, b: nat): nat { if b > a then 0 else a - b }

  /** `max * 7 / 10` */
  function Target(max: nat): nat { max * 7 / 10 }

  function ActiveTokens(ps: seq<Page>): nat {
    if ps == [] then 0 else (if ps[0].pagedOut then 0 else ps[0].tokens) + ActiveTokens(ps[1..])
  }

  /** The copy handed out when a page is evicted, and what stays behind. */
  function Copy(p: Page): Page { p.(pagedOut := true) }
  function Stubbed(p: Page): Page { p.(pagedOut := true, content := Stub(p.id, p.tokens)) }

  datatype PagedOut = PagedOut(pages: seq<Page>, current: nat, evicted: seq<Page>)

  /** `execute_page_out` over the pages from the oldest on. */
  function PageOut(ps: seq<Page>, current: nat, target: nat): (r: PagedOut)
    ensures |r.pages| == |ps|
    decreases |ps|
  {
    if ps == [] || current <= target then PagedOut(ps, current, [])
    else if ps[0].pagedOut then
      var r := PageOut(ps[1..], current, target);
      PagedOut([ps[0]] + r.pages, r.current, r.evicted)
    else
      var r := PageOut(ps[1..], SaturatingSub(current, ps[0].tokens), target);
      PagedOut([Stubbed(ps[0])] + r.pages, r.current, [Copy(ps[0])] + r.evicted)
  }

  // ----- what a page-out does --------------------------------------------

  function Active(ps: seq<Page>): (r: seq<Page>)
    ensures forall p :: p in r <==> p in ps && !p.pagedOut
  {
    if ps == [] then [] else (if ps[0].pagedOut then [] else [ps[0]]) + Active(ps[1..])
  }

  function Copies(ps: seq<Page>): (r: seq<Page>)
    ensures |r| == |ps| && forall i | 0 <= i < |ps| :: r[i] == Copy(ps[i])
  {
    seq(|ps|, i requires 0 <= i < |ps| => Copy(ps[i]))
  }

  function Stubs(ps: seq<Page>): (r: seq<Page>)
    ensures |r| == |ps| && forall i | 0 <= i < |ps| :: r[i] == if ps[i].pagedOut then ps[i] else Stubbed(ps[i])
  {
    seq(|ps|, i requires 0 <= i < |ps| => if ps[i].pagedOut then ps[i] else Stubbed(ps[i]))
  }

  /** Exactly the active pages among the first `k` were evicted, oldest first, and `k` is no larger than needed. */
  predicate EvictsPrefix(ps: seq<Page>, target: nat, r: PagedOut, k: nat) {
    && k <= |ps|
    && r.pages == Stubs(ps[..k]) + ps[k..]
    && r.evicted == Copies(Active(ps[..k]))
    && r.current == ActiveTokens(r.pages) == ActiveTokens(ps[k..]) <= target
    && (k > 0 ==> !ps[k - 1].pagedOut && ActiveTokens(ps[k - 1..]) > target)
  }

  /**
   A page-out that starts from an exact count ends at or below the target and
   evicts exactly the shortest oldest-first run of active pages that gets there;
   the count stays exact, so the subtraction never saturates.
   */
  lemma {:induction false} PageOutIsShortest(ps: seq<Page>, current: nat, target: nat) returns (k: nat)
    requires current == ActiveTokens(ps)
    ensures EvictsPrefix(ps, target, PageOut(ps, current, target), k)
    decreases |ps|
  {
    hide ActiveTokens, PageOut, Stubs, Active, EvictsPrefix, Copies;
    if current <= target {
      k := 0;
      NothingOut(ps, current, target);
    } else {
      SomeTokens(ps);
      var rest := ps[1..];
      PageOutTurn(ps, current, target);
      var j := PageOutIsShortest(rest, ActiveTokens(rest), target);
      k := j + 1;
      ShiftedPrefix(ps, target, PageOut(rest, ActiveTokens(rest), target), j);
    }
  }

  lemma SomeTokens(ps: seq<Page>)
    ensures ActiveTokens(ps) > 0 ==> ps != []
  {
  }

  lemma NothingOut(ps: seq<Page>, current: nat, target: nat)
    requires current == ActiveTokens(ps) <= target
    ensures EvictsPrefix(ps, target, PageOut(ps, current, target), 0)
  {
    hide ActiveTokens;
    assert ps[..0] == [] && ps[0..] == ps;
    assert Stubs([]) + ps == ps && Copies([]) == [];
  }

  lemma PageOutTurn(ps: seq<Page>, current: nat, target: nat)
    requires ps != [] && current == ActiveTokens(ps) > target
    ensures var r := PageOut(ps[1..], ActiveTokens(ps[1..]), target);
            PageOut(ps, current, target) == if ps[0].pagedOut then PagedOut([ps[0]] + r.pages, r.current, r.evicted)
                                            else PagedOut([Stubbed(ps[0])] + r.pages, r.current, [Copy(ps[0])] + r.evicted)
  {
    TokensTurn(ps);
    hide ActiveTokens;
  }

  lemma TokensTurn(ps: seq<Page>)
    requires ps != []
    ensures ActiveTokens(ps) == (if ps[0].pagedOut then 0 else ps[0].tokens) + ActiveTokens(ps[1..])
  {
  }

  lemma CopiesTurn(ps: seq<Page>)
    requires ps != []
    ensures Copies(Active(ps)) == (if ps[0].pagedOut then [] else [Copy(ps[0])]) + Copies(Active(ps[1..]))
  {
    var head := if ps[0].pagedOut then [] else [ps[0]];
    assert Active(ps) == head + Active(ps[1..]);
    hide Active;
    CopiesConcat(head, Active(ps[1..]));
    assert Copies(head) == if ps[0].pagedOut then [] else [Copy(ps[0])];
  }

  lemma CopiesConcat(a: seq<Page>, b: seq<Page>)
    ensures Copies(a + b) == Copies(a) + Copies(b)
  {
  }

  lemma StubsTurn(ps: seq<Page>, rest: seq<Page>)
    requires ps != []
    ensures Stubs(ps) + rest == [if ps[0].pagedOut then ps[0] else Stubbed(ps[0])] + (Stubs(ps[1..]) + rest)
  {
  }

  /** From the pages after the first to all of them. */
  lemma ShiftedPrefix(ps: seq<Page>, target: nat, r: PagedOut, j: nat)
    requires ps != [] && EvictsPrefix(ps[1..], target, r, j) && ActiveTokens(ps) > target
    ensures EvictsPrefix(ps, target, if ps[0].pagedOut then PagedOut([ps[0]] + r.pages, r.current, r.evicted)
                                     else PagedOut([Stubbed(ps[0])] + r.pages, r.current, [Copy(ps[0])] + r.evicted), j + 1)
  {
    hide ActiveTokens, Stubs, Active, Copies;
    Slices(ps, j);
    TokensTurn(ps);
    CopiesTurn(ps[..j + 1]);
    StubsTurn(ps[..j + 1], ps[1..][j..]);
    var head := if ps[0].pagedOut then ps[0] else Stubbed(ps[0]);
    HeadOut(head, r.pages);
  }

  lemma HeadOut(head: Page, rest: seq<Page>)
    requires head.pagedOut
    ensures ActiveTokens([head] + rest) == ActiveTokens(rest)
  {
    assert ([head] + rest)[1..] == rest;
  }

  lemma Slices(ps: seq<Page>, j: nat)
    requires j < |ps|
    ensures ps[..j + 1] != [] && ps[..j + 1][0] == ps[0] && ps[..j + 1][1..] == ps[1..][..j] && ps[j + 1..] == ps[1..][j..]
    ensures j > 0 ==> ps[j..] == ps[1..][j - 1..] && ps[j] == ps[1..][j - 1]
    ensures ps[0..] == ps && ps[1..][0..] == ps[1..]
  {
  }

  // ----- the latest evicted copy -----------------------------------------

  /** The last copy handed out for the page at an index. */
  function Latest(copies: seq<Page>, index: nat): Option<Page>
    decreases |copies|
  {
    if copies == [] then None
    else
      var n := |copies| - 1;
      if copies[n].id.index == index then Some(copies[n]) else Latest(copies[..n], index)
  }

  lemma {:induction false} LatestConcat(a: seq<Page>, b: seq<Page>, index: nat)
    ensures Latest(a + b, index) == if Latest(b, index).Some? then Latest(b, index) else Latest(a, index)
    decreases |b|
  {
    if b == [] {
      assert a + b == a;
    } else {
      var n := |b| - 1;
      assert (a + b)[|a| + n] == b[n] && (a + b)[..|a| + n] == a + b[..n];
      LatestConcat(a, b[..n], index);
    }
  }

  lemma {:induction false} ActiveConcat(a: seq<Page>, b: seq<Page>)
    ensures Active(a + b) == Active(a) + Active(b)
    decreases |a|
  {
    if a == [] {
      assert a + b == b;
    } else {
      assert (a + b)[1..] == a[1..] + b;
      ActiveConcat(a[1..], b);
    }
  }

  predicate Indexed(ps: seq<Page>) {
    forall i | 0 <= i < |ps| :: ps[i].id.index == i
  }

  lemma OneCopy(p: Page, i: nat)
    ensures Copies(Active([p])) == if p.pagedOut then [] else [Copy(p)]
    ensures Latest(Copies(Active([p])), i) == if !p.pagedOut && p.id.index == i then Some(Copy(p)) else None
  {
    assert [p][1..] == [] && Active([]) == [];
  }

  /** Among the copies of a page-out, the one of page `i` is there exactly when it was active in the prefix. */
  lemma {:induction false} EvictedCopy(ps: seq<Page>, k: nat, i: nat)
    requires k <= |ps| && Indexed(ps)
    ensures Latest(Copies(Active(ps[..k])), i) == if i < k && !ps[i].pagedOut then Some(Copy(ps[i])) else None
    decreases k
  {
    if k == 0 {
      assert ps[..0] == [] && Copies(Active([])) == [];
    } else {
      hide Active, Copies, Latest;
      var p := ps[k - 1];
      EvictedCopy(ps, k - 1, i);
      assert ps[..k] == ps[..k - 1] + [p];
      ActiveConcat(ps[..k - 1], [p]);
      CopiesConcat(Active(ps[..k - 1]), Active([p]));
      LatestConcat(Copies(Active(ps[..k - 1])), Copies(Active([p])), i);
      OneCopy(p, i);
    }
  }

  /** A page-out that starts above its target hands out at least one copy. */
  lemma SomethingOut(ps: seq<Page>, current: nat, target: nat)
    requires current == ActiveTokens(ps) > target
    ensures PageOut(ps, current, target).evicted != []
  {
    var k := PageOutIsShortest(ps, current, target);
    hide PageOut, ActiveTokens, Active, Copies;
    if k > 0 {
      assert ps[..k][k - 1] == ps[k - 1] && ps[k - 1] in ps[..k];
    }
  }

  // ----- the table -------------------------------------------------------

  /** An active page holds what was last written to it; of a paged-out page the latest copy does. */
  predicate PageOk(t: Table, i: nat)
    requires i < |t.pages| && |t.written| == |t.pages|
  {
    var p := t.pages[i];
    && p.id.index == i
    && if !p.pagedOut then p.content == Text(t.written[i])
       else p.content == Stub(p.id, p.tokens)
            && Latest(t.taken + t.pending, i) == Some(Page(p.id, p.timestamp, p.tokens, Text(t.written[i]), true))
  }

  predicate Sound(t: Table) {
    && t.current == ActiveTokens(t.pages)
    && |t.written| == |t.pages| && forall i | 0 <= i < |t.pages| :: PageOk(t, i)
  }

  predicate Valid(t: Table) {
    Sound(t) && t.current <= t.max
  }

  /** What both callers do once the count exceeds the maximum. */
  function Settle(t: Table): Table {
    if t.current <= t.max then t
    else
      var r := PageOut(t.pages, t.current, Target(t.max));
      t.(pages := r.pages, current := r.current, pending := t.pending + r.evicted)
  }

  /** `append_context_frame`; a frame of no tokens is refused. */
  function AppendFrame(t: Table, millis: nat, timestamp: nat, tokens: nat, text: string): Table {
    if tokens == 0 then t
    else Settle(t.(current := t.current + tokens, written := t.written + [text],
                   pages := t.pages + [Page(PageId(millis, |t.pages|), timestamp, tokens, Text(text), false)]))
  }

  function Position(ps: seq<Page>, id: PageId, from: nat): (r: Option<nat>)
    requires from <= |ps|
    ensures r.Some? ==> r.value < |ps| && ps[r.value].id == id
    decreases |ps| - from
  {
    if from == |ps| then None else if ps[from].id == id then Some(from) else Position(ps, id, from + 1)
  }

  /** `page_in_frame`; an unknown page is refused. */
  function PageIn(t: Table, id: PageId, text: string): Table {
    var at := Position(t.pages, id, 0);
    if at.None? || |t.written| != |t.pages| then t
    else
      var i := at.value;
      var p := t.pages[i];
      Settle(t.(current := t.current + if p.pagedOut then p.tokens else 0,
                pages := t.pages[i := p.(content := Text(text), pagedOut := false)], written := t.written[i := text]))
  }

  /** `take_evicted_pages` */
  function Take(t: Table): Table {
    t.(pending := [], taken := t.taken + t.pending)
  }

  /** A page-out evicts a shortest prefix, keeps the count exact and ends at the target or below. */
  lemma SettleKeeps(t: Table)
    requires Sound(t)
    ensures Valid(Settle(t))
    ensures t.current > t.max ==> Settle(t).current <= Target(t.max)
  {
    if t.current > t.max {
      var k := PageOutIsShortest(t.pages, t.current, Target(t.max));
      var r, u := PageOut(t.pages, t.current, Target(t.max)), Settle(t);
      assert Indexed(t.pages) by { forall i | 0 <= i < |t.pages| ensures t.pages[i].id.index == i { assert PageOk(t, i); } }
      assert u.taken + u.pending == t.taken + t.pending + r.evicted;
      hide ActiveTokens, PageOut, Copies, Active, Latest;
      forall i | 0 <= i < |u.pages| ensures PageOk(u, i) {
        assert PageOk(t, i);
        EvictedCopy(t.pages, k, i);
        LatestConcat(t.taken + t.pending, r.evicted, i);
        assert u.pages[i] == if i < k && !t.pages[i].pagedOut then Stubbed(t.pages[i]) else t.pages[i];
      }
    }
  }

  lemma {:induction false} TokensConcat(a: seq<Page>, b: seq<Page>)
    ensures ActiveTokens(a + b) == ActiveTokens(a) + ActiveTokens(b)
    decreases |a|
  {
    if a == [] {
      assert a + b == b;
    } else {
      assert (a + b)[1..] == a[1..] + b;
      TokensConcat(a[1..], b);
    }
  }

  lemma UpdateTokens(ps: seq<Page>, i: nat, p: Page)
    requires i < |ps| && !p.pagedOut && p.tokens == ps[i].tokens
    ensures ActiveTokens(ps[i := p]) == ActiveTokens(ps) + if ps[i].pagedOut then p.tokens else 0
  {
    assert ps == ps[..i] + ([ps[i]] + ps[i + 1..]) && ps[i := p] == ps[..i] + ([p] + ps[i + 1..]);
    TokensConcat(ps[..i], [ps[i]] + ps[i + 1..]);
    TokensConcat(ps[..i], [p] + ps[i + 1..]);
    assert ([ps[i]] + ps[i + 1..])[1..] == ps[i + 1..] && ([p] + ps[i + 1..])[1..] == ps[i + 1..];
  }

  lemma AppendValid(t: Table, millis: nat, timestamp: nat, tokens: nat, text: string)
    requires Valid(t)
    ensures Valid(AppendFrame(t, millis, timestamp, tokens, text))
  {
    if tokens > 0 {
      var p := Page(PageId(millis, |t.pages|), timestamp, tokens, Text(text), false);
      var u := t.(current := t.current + tokens, written := t.written + [text], pages := t.pages + [p]);
      TokensConcat(t.pages, [p]);
      assert [p][1..] == [];
      hide Latest;
      forall i | 0 <= i < |u.pages| ensures PageOk(u, i) { if i < |t.pages| { assert PageOk(t, i); } }
      SettleKeeps(u);
    }
  }

  lemma PageInValid(t: Table, id: PageId, text: string)
    requires Valid(t)
    ensures Valid(PageIn(t, id, text))
  {
    var at := Position(t.pages, id, 0);
    if at.Some? {
      var i := at.value;
      var p := t.pages[i];
      var q := p.(content := Text(text), pagedOut := false);
      var u := t.(current := t.current + if p.pagedOut then p.tokens else 0, pages := t.pages[i := q], written := t.written[i := text]);
      UpdateTokens(t.pages, i, q);
      hide Latest, ActiveTokens;
      forall j | 0 <= j < |u.pages| ensures PageOk(u, j) { assert PageOk(t, j); }
      SettleKeeps(u);
    }
  }

  lemma TakeValid(t: Table)
    requires Valid(t)
    ensures Valid(Take(t))
  {
    assert Take(t).taken + Take(t).pending == t.taken + t.pending;
    hide Latest, ActiveTokens;
    forall i | 0 <= i < |t.pages| ensures PageOk(Take(t), i) { assert PageOk(t, i); }
  }

  datatype Op = DoAppend(millis: nat, timestamp: nat, tokens: nat, text: string) | DoPageIn(id: PageId, text: string) | DoTake

  function Apply(t: Table, op: Op): Table {
    match op
    case DoAppend(m, ts, n, s) => AppendFrame(t, m, ts, n, s)
    case DoPageIn(id, s) => PageIn(t, id, s)
    case DoTake => Take(t)
  }

  function Run(t: Table, ops: seq<Op>): Table
    decreases |ops|
  {
    if ops == [] then t else Run(Apply(t, ops[0]), ops[1..])
  }

  /**
   Page-table accounting. After any sequence of appends, page-ins and takes the
   cached count is the token sum of the pages not paged out and within the
   maximum, every active page holds what was last written to it, and what was
   last written to a paged-out page is the content of its latest evicted copy.
   */
  lemma {:induction false} Accounting(t: Table, ops: seq<Op>)
    requires Valid(t)
    ensures Valid(Run(t, ops))
    decreases |ops|
  {
    hide Valid, Take, PageIn, AppendFrame;
    if ops != [] {
      match ops[0]
      case DoAppend(m, ts, n, s) => AppendValid(t, m, ts, n, s); Accounting(AppendFrame(t, m, ts, n, s), ops[1..]);
      case DoPageIn(id, s) => PageInValid(t, id, s); Accounting(PageIn(t, id, s), ops[1..]);
      case DoTake => TakeValid(t); Accounting(Take(t), ops[1..]);
    }
  }

  // ----- the table object ------------------------------------------------

  class AgentPageTable {
    const maxActiveTokens: nat
    var currentActiveTokens: nat
    var pages: seq<Page>
    var pendingEvictions: seq<Page>
    ghost var taken: seq<Page>
    ghost var written: seq<string>

    constructor (max: nat)
      ensures maxActiveTokens == max && Now() == Table(max, 0, [], [], [], []) && Valid(Now())
    {
      maxActiveTokens, currentActiveTokens, pages, pendingEvictions, taken, written := max, 0, [], [], [], [];
    }

    ghost function Now(): Table
      reads this
    {
      Table(maxActiveTokens, currentActiveTokens, pages, pendingEvictions, taken, written)
    }

    /** The page-out loop: stop at the target, skip pages already out. */
    method ExecutePageOut() returns (evicted: seq<Page>)
      requires currentActiveTokens == ActiveTokens(pages)
      modifies `pages, `currentActiveTokens
      ensures PagedOut(pages, currentActiveTokens, evicted) == PageOut(old(pages), old(currentActiveTokens), Target(maxActiveTokens))
    {
      hide PageOut;
      evicted := [];
      var target := Target(maxActiveTokens);
      ghost var before := pages;
      assert before[0..] == before;
      PageOutDone([], currentActiveTokens, target, before);
      var i := 0;
      while i < |pages| && currentActiveTokens > target
        invariant i <= |pages| == |before| && pages[i..] == before[i..]
        invariant PageOut(before, old(currentActiveTokens), target) == Joined(pages[..i], evicted, PageOut(before[i..], currentActiveTokens, target))
      {
        PageOutAt(before, i, currentActiveTokens, target);
        assert pages[i] == pages[i..][0] == before[i];
        ghost var done, out := pages[..i], evicted;
        if !pages[i].pagedOut {
          currentActiveTokens := SaturatingSub(currentActiveTokens, pages[i].tokens);
          evicted := evicted + [pages[i].(pagedOut := true)];
          pages := pages[i := pages[i].(pagedOut := true, content := Stub(pages[i].id, pages[i].tokens))];
        }
        assert pages[..i + 1] == done + [pages[i]];
        assert pages[i + 1..] == before[i..][1..] == before[i + 1..];
        JoinedShift(done, out, pages[i], evicted, PageOut(before[i + 1..], currentActiveTokens, target));
        i := i + 1;
      }
      PageOutEnds(before[i..], currentActiveTokens, target);
      assert pages == pages[..i] + pages[i..];
      assert evicted + [] == evicted;
    }

    /** None when it raises; otherwise whether the append paged something out. */
    method AppendContextFrame(millis: nat, timestamp: nat, tokens: nat, text: string) returns (out: Option<bool>)
      requires Valid(Now())
      modifies this
      ensures Now() == AppendFrame(old(Now()), millis, timestamp, tokens, text) && Valid(Now())
      ensures out.None? <==> tokens == 0
      ensures out.None? ==> Now() == old(Now())
      ensures out.Some? ==> (out.value <==> old(currentActiveTokens) + tokens > maxActiveTokens)
      ensures out == Some(true) <==> |pendingEvictions| > |old(pendingEvictions)|
    {
      AppendValid(Now(), millis, timestamp, tokens, text);
      if tokens == 0 { return None; }
      var p := Page(PageId(millis, |pages|), timestamp, tokens, Text(text), false);
      TokensConcat(pages, [p]);
      assert [p][1..] == [];
      hide PageOut, ActiveTokens;
      currentActiveTokens := currentActiveTokens + tokens;
      pages := pages + [p];
      written := written + [text];
      out := Some(currentActiveTokens > maxActiveTokens);
      if out.value {
        SomethingOut(pages, currentActiveTokens, Target(maxActiveTokens));
        var evicted := ExecutePageOut();
        pendingEvictions := pendingEvictions + evicted;
      }
    }

    /** False when the page is unknown. */
    method PageInFrame(id: PageId, text: string) returns (ok: bool)
      requires Valid(Now())
      modifies this
      ensures Now() == PageIn(old(Now()), id, text) && Valid(Now())
      ensures ok <==> Position(old(pages), id, 0).Some?
    {
      PageInValid(Now(), id, text);
      var at := Position(pages, id, 0);
      if at.None? { return false; }
      var i := at.value;
      var p := pages[i];
      UpdateTokens(pages, i, p.(content := Text(text), pagedOut := false));
      hide PageOut, ActiveTokens;
      if p.pagedOut { currentActiveTokens := currentActiveTokens + p.tokens; }
      pages := pages[i := p.(content := Text(text), pagedOut := false)];
      written := written[i := text];
      if currentActiveTokens > maxActiveTokens {
        var evicted := ExecutePageOut();
        pendingEvictions := pendingEvictions + evicted;
      }
      return true;
    }

    method TakeEvictedPages() returns (out: seq<Page>)
      requires Valid(Now())
      modifies this
      ensures out == old(pendingEvictions) && Now() == Take(old(Now())) && Valid(Now())
    {
      TakeValid(Now());
      out := pendingEvictions;
      pendingEvictions := [];
      taken := taken + out;
    }
  }

  /** A page-out that already handled some pages, and the rest of it. */
  function Joined(done: seq<Page>, out: seq<Page>, rest: PagedOut): PagedOut {
    PagedOut(done + rest.pages, rest.current, out + rest.evicted)
  }

  lemma PageOutDone(done: seq<Page>, current: nat, target: nat, ps: seq<Page>)
    requires done == []
    ensures PageOut(ps, current, target) == Joined(done, [], PageOut(ps, current, target))
  {
    hide PageOut;
    var r := PageOut(ps, current, target);
    assert [] + r.pages == r.pages && [] + r.evicted == r.evicted;
  }

  lemma JoinedShift(done: seq<Page>, out: seq<Page>, p: Page, out': seq<Page>, rest: PagedOut)
    ensures Joined(done + [p], out', rest) == PagedOut(done + ([p] + rest.pages), rest.current, out' + rest.evicted)
    ensures forall c: Page :: (out + [c]) + rest.evicted == out + ([c] + rest.evicted)
  {
    assert done + [p] + rest.pages == done + ([p] + rest.pages);
  }

  lemma PageOutAt(ps: seq<Page>, i: nat, current: nat, target: nat)
    requires i < |ps| && current > target
    ensures PageOut(ps[i..], current, target) ==
            if ps[i].pagedOut then
              var r := PageOut(ps[i + 1..], current, target);
              PagedOut([ps[i]] + r.pages, r.current, r.evicted)
            else
              var r := PageOut(ps[i + 1..], SaturatingSub(current, ps[i].tokens), target);
              PagedOut([Stubbed(ps[i])] + r.pages, r.current, [Copy(ps[i])] + r.evicted)
  {
    assert ps[i..][0] == ps[i] && ps[i..][1..] == ps[i + 1..];
  }

  lemma PageOutEnds(ps: seq<Page>, current: nat, target: nat)
    requires ps == [] || current <= target
    ensures PageOut(ps, current, target) == PagedOut(ps, current, [])
  {
  }
}
