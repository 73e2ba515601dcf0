/**
 Saving a paused checkpoint as a JSON document and loading it back. A document
 is a tree of records with named fields; digests, timestamps and the
 secret-detecting patterns are parameters.
 */
module CheckpointCodec {
  import opened Prelude
  import opened LlmTypes
  import opened ToolLoop
  import opened SortedSets

  /** Field names of the persisted schema. */
  datatype Field =
    | FCheckpointId | FLoopId | FCreatedAt | FRoundIndex | FHistory | FResponse | FToolDefinitions | FCompatibility | FFingerprints
    | FAllowedToolNames | FConfig | FSteps | FToolResults | FPendingApprovals | FPreflightOutcomes | FExecution | FResources | FRoute
    | FRole | FContent | FId | FName | FArguments | FProvider | FModel | FUsage | FToolCalls
    | FPromptTokens | FCompletionTokens | FTotalTokens | FDescription | FParametersSchema
    | FToolCallId | FSuccess | FError | FIndex | FKind | FErrorType | FErrorCategory
    | FLlmResult | FDenied | FResourceDenied | FTimedOut | FLimitName | FLimitValue
    | FMaxSteps | FRequireToolApproval | FStopOnToolError | FToolExecutionMode | FIncludeIntermediateSteps
    | FToolPermissionPolicy | FToolResourceLimits | FAllowedTools | FDeniedTools | FDefaultAllow
    | FMaxToolCallsPerLoop | FMaxToolCallsPerRound | FMaxCallsPerTool | FToolTimeoutMs
    | FToolName | FCallIndex | FRequestedExecutionMode | FEffectiveExecutionMode
    | FRequestedMode | FEffectiveMode | FFallbackReason | FParallelSafeToolCount | FUnsafeToolCount
    | FTotalRequested | FRoundRequested | FToolRequested

  datatype Doc =
    | DNull
    | DBool(b: bool)
    | DInt(i: int)
    | DStr(s: string)
    | DArr(items: seq<Doc>)
    | DRec(fields: map<Field, Doc>)
    | DMap(entries: map<string, Doc>)
    | DJson(value: map<string, Json>)

  // ----- scalars and lists -----------------------------------------------

  function At(d: Doc, f: Field): Option<Doc> {
    if d.DRec? && f in d.fields then Some(d.fields[f]) else None
  }

  function DecBool(d: Doc): Option<bool> { if d.DBool? then Some(d.b) else None }
  function DecNat(d: Doc): Option<nat> { if d.DInt? && d.i >= 0 then Some(d.i) else None }
  function DecStr(d: Doc): Option<string> { if d.DStr? then Some(d.s) else None }
  function DecJson(d: Doc): Option<map<string, Json>> { if d.DJson? then Some(d.value) else None }
  function DecArr(d: Doc): Option<seq<Doc>> { if d.DArr? then Some(d.items) else None }

  function EncOpt<T>(o: Option<T>, enc: T -> Doc): Doc { if o.Some? then enc(o.value) else DNull }

  function DecOpt<T>(d: Doc, dec: Doc -> Option<T>): Option<Option<T>> {
    if d.DNull? then Some(None)
    else
      var x :- dec(d);
      Some(Some(x))
  }

  function EncStr(s: string): (d: Doc) { DStr(s) }
  function EncNat(n: nat): (d: Doc) { DInt(n) }

  function EncMode(m: Mode): Doc { DStr(if m == Parallel then "parallel" else "sequential") }

  function DecMode(d: Doc): Option<Mode> {
    if d == DStr("parallel") then Some(Parallel) else if d == DStr("sequential") then Some(Sequential) else None
  }

  function EncAll<T>(xs: seq<T>, enc: T -> Doc): (ds: seq<Doc>)
    ensures |ds| == |xs|
  {
    seq(|xs|, i requires 0 <= i < |xs| => enc(xs[i]))
  }

  function DecAll<T>(ds: seq<Doc>, dec: Doc -> Option<T>): Option<seq<T>>
    decreases |ds|
  {
    if ds == [] then Some([])
    else
      var x :- dec(ds[0]);
      var rest :- DecAll(ds[1..], dec);
      Some([x] + rest)
  }

  function MapAll<T>(xs: seq<T>, f: T -> T): (ys: seq<T>)
    ensures |ys| == |xs| && forall i | 0 <= i < |xs| :: ys[i] == f(xs[i])
  {
    seq(|xs|, i requires 0 <= i < |xs| => f(xs[i]))
  }

  function DecList<T>(d: Doc, dec: Doc -> Option<T>): Option<seq<T>> {
    var ds :- DecArr(d);
    DecAll(ds, dec)
  }

  lemma {:induction false} ListTrip<T>(xs: seq<T>, enc: T -> Doc, dec: Doc -> Option<T>, erase: T -> T)
    requires forall x | x in xs :: dec(enc(x)) == Some(erase(x))
    ensures DecAll(EncAll(xs, enc), dec) == Some(MapAll(xs, erase))
    decreases |xs|
  {
    if xs != [] {
      assert xs[0] in xs && forall x | x in xs[1..] :: x in xs;
      ListTrip(xs[1..], enc, dec, erase);
      assert EncAll(xs, enc)[1..] == EncAll(xs[1..], enc);
      assert MapAll(xs, erase) == [erase(xs[0])] + MapAll(xs[1..], erase);
    } else {
      assert MapAll(xs, erase) == [];
    }
  }

  // ----- sets and counters -----------------------------------------------

  ghost function EncNames(s: set<string>): Doc { DArr(EncAll(Sorted(s, TextLe), EncStr)) }

  function DecNames(d: Doc): Option<set<string>> {
    var xs :- DecList(d, DecStr);
    Some(set x | x in xs)
  }

  lemma StringsTrip(xs: seq<string>)
    ensures DecAll(EncAll(xs, EncStr), DecStr) == Some(xs)
  {
    var e: string -> Doc, d: Doc -> Option<string>, id := EncStr, DecStr, (x: string) => x;
    forall x | x in xs ensures d(e(x)) == Some(id(x)) { }
    ListTrip(xs, e, d, id);
    assert MapAll(xs, id) == xs;
  }

  lemma NamesTrip(s: set<string>)
    ensures DecNames(EncNames(s)) == Some(s)
  {
    hide TextLe, Sorted, TotalOrder, DecAll, EncAll;
    TextLeTotal();
    SortedIs(s, TextLe);
    StringsTrip(Sorted(s, TextLe));
  }

  function EncPair<K>(k: K, n: nat, enc: K -> Doc): Doc { DArr([enc(k), DInt(n)]) }

  function DecPair<K>(d: Doc, dec: Doc -> Option<K>): Option<(K, nat)> {
    var xs :- DecArr(d);
    if |xs| != 2 then None
    else
      var k :- dec(xs[0]);
      var n :- DecNat(xs[1]);
      Some((k, n))
  }

  /** `dict(pairs)`: later entries win. */
  function FromPairs<K(==)>(ps: seq<(K, nat)>): map<K, nat>
    decreases |ps|
  {
    if ps == [] then map[] else FromPairs(ps[..|ps| - 1])[ps[|ps| - 1].0 := ps[|ps| - 1].1]
  }

  function PairDocs<K>(keys: seq<K>, m: map<K, nat>, enc: K -> Doc): seq<Doc>
    requires forall k | k in keys :: k in m
  {
    seq(|keys|, i requires 0 <= i < |keys| => EncPair(keys[i], m[keys[i]], enc))
  }

  function PairsOf<K>(keys: seq<K>, m: map<K, nat>): (r: seq<(K, nat)>)
    requires forall k | k in keys :: k in m
    ensures |r| == |keys| && forall i | 0 <= i < |keys| :: r[i] == (keys[i], m[keys[i]])
  {
    seq(|keys|, i requires 0 <= i < |keys| => (keys[i], m[keys[i]]))
  }

  lemma {:induction false} PairsTrip<K>(keys: seq<K>, m: map<K, nat>, enc: K -> Doc, dec: Doc -> Option<K>)
    requires (forall k | k in keys :: k in m) && forall k | k in keys :: dec(enc(k)) == Some(k)
    ensures DecAll(PairDocs(keys, m, enc), d => DecPair(d, dec)) == Some(PairsOf(keys, m))
    decreases |keys|
  {
    var f := d => DecPair(d, dec);
    if keys == [] {
      assert PairsOf(keys, m) == [];
    } else {
      assert keys[0] in keys && forall k | k in keys[1..] :: k in keys;
      PairsTrip(keys[1..], m, enc, dec);
      assert PairDocs(keys, m, enc)[1..] == PairDocs(keys[1..], m, enc);
      assert f(PairDocs(keys, m, enc)[0]) == Some((keys[0], m[keys[0]]));
      assert PairsOf(keys, m) == [(keys[0], m[keys[0]])] + PairsOf(keys[1..], m);
    }
  }

  lemma {:induction false} PairsRestore<K>(keys: seq<K>, m: map<K, nat>)
    requires forall k | k in keys :: k in m
    ensures var r := FromPairs(PairsOf(keys, m)); r.Keys == (set k | k in keys) && forall k | k in keys :: r[k] == m[k]
    decreases |keys|
  {
    if keys != [] {
      var n := |keys| - 1;
      var init := keys[..n];
      assert keys == init + [keys[n]];
      assert forall k | k in init :: k in keys;
      PairsRestore(init, m);
      assert PairsOf(keys, m)[..n] == PairsOf(init, m);
      assert keys[n] in keys;
    }
  }

  ghost function NatKeys(m: map<nat, nat>): (ks: seq<nat>)
    ensures (set k | k in ks) == m.Keys
  {
    NatLeTotal();
    SortedIs(m.Keys, NatLe);
    Sorted(m.Keys, NatLe)
  }

  ghost function TextKeys(m: map<string, nat>): (ks: seq<string>)
    ensures (set k | k in ks) == m.Keys
  {
    TextLeTotal();
    SortedIs(m.Keys, TextLe);
    Sorted(m.Keys, TextLe)
  }

  /** `[list(x) for x in sorted(counts.items())]` */
  ghost function EncNatCounts(m: map<nat, nat>): Doc { DArr(PairDocs(NatKeys(m), m, EncNat)) }
  ghost function EncTextCounts(m: map<string, nat>): Doc { DArr(PairDocs(TextKeys(m), m, EncStr)) }

  function DecCounts<K(==)>(d: Doc, dec: Doc -> Option<K>): Option<map<K, nat>> {
    var ds :- DecArr(d);
    var ps :- DecAll(ds, e => DecPair(e, dec));
    Some(FromPairs(ps))
  }

  lemma CountsTrip<K>(keys: seq<K>, m: map<K, nat>, enc: K -> Doc, dec: Doc -> Option<K>)
    requires (set k | k in keys) == m.Keys && (forall k | k in keys :: k in m) && forall k | k in keys :: dec(enc(k)) == Some(k)
    ensures DecCounts(DArr(PairDocs(keys, m, enc)), dec) == Some(m)
  {
    PairsTrip(keys, m, enc, dec);
    PairsRestore(keys, m);
    assert FromPairs(PairsOf(keys, m)) == m;
  }

  lemma CountersTrip(c: Counters)
    ensures DecCounts(EncNatCounts(c.perRound), DecNat) == Some(c.perRound)
    ensures DecCounts(EncTextCounts(c.perTool), DecStr) == Some(c.perTool)
  {
    var en: nat -> Doc, dn: Doc -> Option<nat> := EncNat, DecNat;
    var es: string -> Doc, ds: Doc -> Option<string> := EncStr, DecStr;
    forall k: nat ensures dn(en(k)) == Some(k) { }
    forall k: string ensures ds(es(k)) == Some(k) { }
    CountsTrip(NatKeys(c.perRound), c.perRound, en, dn);
    CountsTrip(TextKeys(c.perTool), c.perTool, es, ds);
  }

  // ----- records ---------------------------------------------------------

  function EncMessage(m: Message): Doc { DRec(map[FRole := DStr(m.role), FContent := DStr(m.content)]) }

  function DecMessage(d: Doc): Option<Message> {
    var role :- Text(d, FRole);
    var content :- Text(d, FContent);
    Some(Message(role, content, NoMeta))
  }

  function Text(d: Doc, f: Field): Option<string> {
    var x :- At(d, f);
    DecStr(x)
  }

  function Count(d: Doc, f: Field): Option<nat> {
    var x :- At(d, f);
    DecNat(x)
  }

  function Flag(d: Doc, f: Field): Option<bool> {
    var x :- At(d, f);
    DecBool(x)
  }

  function OptText(d: Doc, f: Field): Option<Option<string>> {
    var x :- At(d, f);
    DecOpt(x, DecStr)
  }

  function OptCount(d: Doc, f: Field): Option<Option<nat>> {
    var x :- At(d, f);
    DecOpt(x, DecNat)
  }

  function ListAt<T>(d: Doc, f: Field, dec: Doc -> Option<T>): Option<seq<T>> {
    var x :- At(d, f);
    DecList(x, dec)
  }

  function EncOptText(o: Option<string>): Doc { if o.Some? then DStr(o.value) else DNull }
  function EncOptCount(o: Option<nat>): Doc { if o.Some? then DInt(o.value) else DNull }

  function EncCall(c: ToolCall): Doc {
    DRec(map[FId := DStr(c.id), FName := DStr(c.name), FArguments := DJson(c.arguments), FProvider := DStr(c.provider), FModel := DStr(c.model)])
  }

  function DecCall(d: Doc): Option<ToolCall> {
    var id :- Text(d, FId);
    var name :- Text(d, FName);
    var a :- At(d, FArguments);
    var arguments :- DecJson(a);
    var provider :- Text(d, FProvider);
    var model :- Text(d, FModel);
    Some(ToolCall(id, name, arguments, provider, model, EmptyMeta))
  }

  function EncUsage(u: Usage): Doc {
    DRec(map[FPromptTokens := EncOptCount(u.prompt), FCompletionTokens := EncOptCount(u.completion), FTotalTokens := EncOptCount(u.total)])
  }

  function DecUsage(d: Doc): Option<Usage> {
    var p :- OptCount(d, FPromptTokens);
    var c :- OptCount(d, FCompletionTokens);
    var t :- OptCount(d, FTotalTokens);
    Some(Usage(p, c, t))
  }

  function EncResponse(r: Response): Doc {
    DRec(map[FContent := DStr(r.content), FModel := DStr(r.model), FProvider := DStr(r.provider),
             FUsage := EncOpt(r.usage, EncUsage), FToolCalls := DArr(EncAll(r.toolCalls, EncCall))])
  }

  function DecResponse(d: Doc): Option<Response> {
    var content :- Text(d, FContent);
    var model :- Text(d, FModel);
    var provider :- Text(d, FProvider);
    var u :- At(d, FUsage);
    var usage :- DecOpt(u, DecUsage);
    var calls :- ListAt(d, FToolCalls, DecCall);
    Some(Response(content, model, provider, usage, EmptyMeta, calls))
  }

  function EncDefinition(t: ToolDefinition): Doc {
    DRec(map[FName := DStr(t.name), FDescription := DStr(t.description), FParametersSchema := DJson(t.schema)])
  }

  function DecDefinition(d: Doc): Option<ToolDefinition> {
    var name :- Text(d, FName);
    var description :- Text(d, FDescription);
    var s :- At(d, FParametersSchema);
    var schema :- DecJson(s);
    Some(ToolDefinition(name, description, schema))
  }

  function EncResult(r: ToolResult): Doc {
    DRec(map[FToolCallId := DStr(r.callId), FName := DStr(r.name), FContent := DStr(r.content), FSuccess := DBool(r.success), FError := EncOptText(r.error)])
  }

  function DecResult(d: Doc): Option<ToolResult> {
    var id :- Text(d, FToolCallId);
    var name :- Text(d, FName);
    var content :- Text(d, FContent);
    var success :- Flag(d, FSuccess);
    var error :- OptText(d, FError);
    Some(ToolResult(id, name, content, success, error))
  }

  function EncStep(s: Step): Doc {
    DRec(map[FIndex := DInt(s.index), FKind := DStr(s.kind), FResponse := EncOpt(s.response, EncResponse),
             FToolCalls := DArr(EncAll(s.toolCalls, EncCall)), FToolResults := DArr(EncAll(s.toolResults, EncResult)), FSuccess := DBool(s.success),
             FErrorType := EncOptText(s.errorType), FErrorCategory := EncOptText(s.errorCategory),
             FProvider := EncOptText(s.provider), FModel := EncOptText(s.model)])
  }

  function DecStep(d: Doc): Option<Step> {
    var index :- Count(d, FIndex);
    var kind :- Text(d, FKind);
    var r :- At(d, FResponse);
    var response :- DecOpt(r, DecResponse);
    var calls :- ListAt(d, FToolCalls, DecCall);
    var results :- ListAt(d, FToolResults, DecResult);
    var success :- Flag(d, FSuccess);
    var errorType :- OptText(d, FErrorType);
    var errorCategory :- OptText(d, FErrorCategory);
    var provider :- OptText(d, FProvider);
    var model :- OptText(d, FModel);
    Some(Step(index, kind, response, calls, results, success, errorType, errorCategory, provider, model))
  }

  function EncOutcome(o: Outcome): Doc {
    DRec(map[FLlmResult := EncResult(o.llmResult), FSuccess := DBool(o.success), FErrorType := EncOptText(o.errorType),
             FErrorCategory := EncOptText(o.errorCategory), FDenied := DBool(o.denied), FResourceDenied := DBool(o.resourceDenied),
             FTimedOut := DBool(o.timedOut), FLimitName := EncOptText(o.limitName), FLimitValue := EncOptCount(o.limitValue)])
  }

  function DecOutcome(d: Doc): Option<Outcome> {
    var r :- At(d, FLlmResult);
    var result :- DecResult(r);
    var success :- Flag(d, FSuccess);
    var errorType :- OptText(d, FErrorType);
    var errorCategory :- OptText(d, FErrorCategory);
    var denied :- Flag(d, FDenied);
    var resourceDenied :- Flag(d, FResourceDenied);
    var timedOut :- Flag(d, FTimedOut);
    var limitName :- OptText(d, FLimitName);
    var limitValue :- OptCount(d, FLimitValue);
    Some(Outcome(result, success, errorType, errorCategory, denied, resourceDenied, timedOut, limitName, limitValue))
  }

  function EncSlot(o: Option<Outcome>): Doc { EncOpt(o, EncOutcome) }
  function DecSlot(d: Doc): Option<Option<Outcome>> { DecOpt(d, DecOutcome) }

  function EncPending(p: PendingApproval): Doc {
    DRec(map[FToolCallId := DStr(p.callId), FToolName := DStr(p.toolName), FRoundIndex := DInt(p.round), FCallIndex := DInt(p.callIndex),
             FRequestedExecutionMode := EncMode(p.requested), FEffectiveExecutionMode := EncMode(p.effective)])
  }

  function DecPending(d: Doc): Option<PendingApproval> {
    var id :- Text(d, FToolCallId);
    var name :- Text(d, FToolName);
    var round :- Count(d, FRoundIndex);
    var index :- Count(d, FCallIndex);
    var r :- At(d, FRequestedExecutionMode);
    var requested :- DecMode(r);
    var e :- At(d, FEffectiveExecutionMode);
    var effective :- DecMode(e);
    Some(PendingApproval(id, name, round, index, requested, effective))
  }

  ghost function EncPolicy(p: Policy): Doc {
    DRec(map[FAllowedTools := EncNames(p.allowed), FDeniedTools := EncNames(p.denied), FDefaultAllow := DBool(p.defaultAllow)])
  }

  function DecPolicy(d: Doc): Option<Policy> {
    var a :- At(d, FAllowedTools);
    var allowed :- DecNames(a);
    var n :- At(d, FDeniedTools);
    var denied :- DecNames(n);
    var defaultAllow :- Flag(d, FDefaultAllow);
    Some(Policy(allowed, denied, defaultAllow))
  }

  function EncToolLimits(m: map<string, nat>): Doc { DMap(map k | k in m :: DInt(m[k])) }

  function DecToolLimits(d: Doc): Option<map<string, nat>> {
    if !d.DMap? || exists k | k in d.entries :: DecNat(d.entries[k]).None? then None
    else Some(map k | k in d.entries :: DecNat(d.entries[k]).value)
  }

  function EncLimits(l: Limits): Doc {
    DRec(map[FMaxToolCallsPerLoop := EncOptCount(l.perLoop), FMaxToolCallsPerRound := EncOptCount(l.perRound),
             FMaxCallsPerTool := EncOpt(l.perTool, EncToolLimits), FToolTimeoutMs := EncOptCount(l.timeoutMs)])
  }

  function DecLimits(d: Doc): Option<Limits> {
    var perLoop :- OptCount(d, FMaxToolCallsPerLoop);
    var perRound :- OptCount(d, FMaxToolCallsPerRound);
    var t :- At(d, FMaxCallsPerTool);
    var perTool :- DecOpt(t, DecToolLimits);
    var timeoutMs :- OptCount(d, FToolTimeoutMs);
    Some(Limits(perLoop, perRound, perTool, timeoutMs))
  }

  ghost function EncConfig(c: Config): Doc {
    DRec(map[FMaxSteps := DInt(c.maxSteps), FRequireToolApproval := DBool(c.requireApproval), FStopOnToolError := DBool(c.stopOnToolError),
             FToolExecutionMode := EncMode(c.mode), FIncludeIntermediateSteps := DBool(c.includeSteps),
             FToolPermissionPolicy := if c.policy.Some? then EncPolicy(c.policy.value) else DNull,
             FToolResourceLimits := EncOpt(c.limits, EncLimits)])
  }

  function DecConfig(d: Doc): Option<Config> {
    var maxSteps :- Count(d, FMaxSteps);
    var requireApproval :- Flag(d, FRequireToolApproval);
    var stopOnToolError :- Flag(d, FStopOnToolError);
    var m :- At(d, FToolExecutionMode);
    var mode :- DecMode(m);
    var includeSteps :- Flag(d, FIncludeIntermediateSteps);
    var p :- At(d, FToolPermissionPolicy);
    var policy :- DecOpt(p, DecPolicy);
    var l :- At(d, FToolResourceLimits);
    var limits :- DecOpt(l, DecLimits);
    Some(Config(maxSteps, requireApproval, stopOnToolError, mode, includeSteps, policy, limits))
  }

  // ----- what a save forgets ---------------------------------------------

  function EraseMessage(m: Message): Message { m.(meta := NoMeta) }
  function EraseCall(c: ToolCall): ToolCall { c.(metadata := EmptyMeta) }
  function EraseCalls(cs: seq<ToolCall>): seq<ToolCall> { MapAll(cs, EraseCall) }
  function EraseResponse(r: Response): Response { r.(metadata := EmptyMeta, toolCalls := EraseCalls(r.toolCalls)) }

  function EraseStep(s: Step): Step {
    s.(response := if s.response.Some? then Some(EraseResponse(s.response.value)) else None, toolCalls := EraseCalls(s.toolCalls))
  }

  // ----- record round trips ----------------------------------------------

  lemma CallsTrip(cs: seq<ToolCall>)
    ensures DecAll(EncAll(cs, EncCall), DecCall) == Some(EraseCalls(cs))
  {
    var e: ToolCall -> Doc, d: Doc -> Option<ToolCall>, f: ToolCall -> ToolCall := EncCall, DecCall, EraseCall;
    forall c | c in cs ensures d(e(c)) == Some(f(c)) { CallTrip(c); }
    ListTrip(cs, e, d, f);
  }

  lemma CallTrip(c: ToolCall)
    ensures DecCall(EncCall(c)) == Some(EraseCall(c))
  {
  }

  lemma UsageTrip(o: Option<Usage>)
    ensures DecOpt(EncOpt(o, EncUsage), DecUsage) == Some(o)
  {
    var e: Usage -> Doc, d: Doc -> Option<Usage> := EncUsage, DecUsage;
    if o.Some? { assert e(o.value).DRec? && d(e(o.value)) == Some(o.value); }
  }

  lemma ResponseTrip(r: Response)
    ensures DecResponse(EncResponse(r)) == Some(EraseResponse(r))
  {
    CallsTrip(r.toolCalls);
    UsageTrip(r.usage);
    hide EncAll, DecAll, EncOpt, DecOpt, EncUsage, DecUsage, EraseCalls;
  }

  lemma OptTextTrip(o: Option<string>)
    ensures DecOpt(EncOptText(o), DecStr) == Some(o)
  {
    var d: Doc -> Option<string> := DecStr;
    if o.Some? { assert d(DStr(o.value)) == Some(o.value); }
  }

  lemma OptCountTrip(o: Option<nat>)
    ensures DecOpt(EncOptCount(o), DecNat) == Some(o)
  {
    var d: Doc -> Option<nat> := DecNat;
    if o.Some? { assert d(DInt(o.value)) == Some(o.value); }
  }

  lemma ResultTrip(r: ToolResult)
    ensures DecResult(EncResult(r)) == Some(r)
  {
    OptTextTrip(r.error);
    hide EncOptText, DecOpt;
  }

  lemma ResultsTrip(rs: seq<ToolResult>)
    ensures DecAll(EncAll(rs, EncResult), DecResult) == Some(rs)
  {
    var e: ToolResult -> Doc, d: Doc -> Option<ToolResult>, id := EncResult, DecResult, (r: ToolResult) => r;
    forall r | r in rs ensures d(e(r)) == Some(id(r)) { ResultTrip(r); }
    ListTrip(rs, e, d, id);
    assert MapAll(rs, id) == rs;
  }

  lemma OptResponseTrip(o: Option<Response>)
    ensures DecOpt(EncOpt(o, EncResponse), DecResponse) == Some(if o.Some? then Some(EraseResponse(o.value)) else None)
  {
    var e: Response -> Doc, d: Doc -> Option<Response> := EncResponse, DecResponse;
    if o.Some? {
      ResponseTrip(o.value);
      assert e(o.value).DRec? && d(e(o.value)) == Some(EraseResponse(o.value));
    }
  }

  lemma StepTrip(s: Step)
    ensures DecStep(EncStep(s)) == Some(EraseStep(s))
  {
    OptResponseTrip(s.response);
    CallsTrip(s.toolCalls); ResultsTrip(s.toolResults);
    OptTextTrip(s.errorType); OptTextTrip(s.errorCategory); OptTextTrip(s.provider); OptTextTrip(s.model);
    hide EncAll, DecAll, EncOpt, DecOpt, EncOptText, EraseCalls, EraseResponse;
  }

  lemma OutcomeTrip(o: Outcome)
    ensures DecOutcome(EncOutcome(o)) == Some(o)
  {
    ResultTrip(o.llmResult);
    OptTextTrip(o.errorType); OptTextTrip(o.errorCategory); OptTextTrip(o.limitName); OptCountTrip(o.limitValue);
    hide EncOptText, EncOptCount, DecOpt, EncResult, DecResult;
  }

  lemma SlotsTrip(os: seq<Option<Outcome>>)
    ensures DecAll(EncAll(os, EncSlot), DecSlot) == Some(os)
  {
    var e: Option<Outcome> -> Doc, d: Doc -> Option<Option<Outcome>>, id := EncSlot, DecSlot, (o: Option<Outcome>) => o;
    forall o | o in os ensures d(e(o)) == Some(id(o)) { SlotTrip(o); }
    ListTrip(os, e, d, id);
    assert MapAll(os, id) == os;
  }

  lemma SlotTrip(o: Option<Outcome>)
    ensures DecSlot(EncSlot(o)) == Some(o)
  {
    var e: Outcome -> Doc, d: Doc -> Option<Outcome> := EncOutcome, DecOutcome;
    if o.Some? {
      OutcomeTrip(o.value);
      assert e(o.value).DRec? && d(e(o.value)) == Some(o.value);
    }
  }

  lemma PendingTrip(p: PendingApproval)
    ensures DecPending(EncPending(p)) == Some(p)
  {
    ModeTrip(p.requested); ModeTrip(p.effective);
    hide EncMode, DecMode;
  }

  lemma ModeTrip(m: Mode)
    ensures DecMode(EncMode(m)) == Some(m)
  {
    assert "parallel"[0] != "sequential"[0];
  }

  lemma PendingsTrip(ps: seq<PendingApproval>)
    ensures DecAll(EncAll(ps, EncPending), DecPending) == Some(ps)
  {
    var e: PendingApproval -> Doc, d: Doc -> Option<PendingApproval>, id := EncPending, DecPending, (p: PendingApproval) => p;
    forall p | p in ps ensures d(e(p)) == Some(id(p)) { PendingTrip(p); }
    ListTrip(ps, e, d, id);
    assert MapAll(ps, id) == ps;
  }

  lemma DefinitionsTrip(ds: seq<ToolDefinition>)
    ensures DecAll(EncAll(ds, EncDefinition), DecDefinition) == Some(ds)
  {
    var e: ToolDefinition -> Doc, d: Doc -> Option<ToolDefinition>, id := EncDefinition, DecDefinition, (t: ToolDefinition) => t;
    forall t | t in ds ensures d(e(t)) == Some(id(t)) { DefinitionTrip(t); }
    ListTrip(ds, e, d, id);
    assert MapAll(ds, id) == ds;
  }

  lemma DefinitionTrip(t: ToolDefinition)
    ensures DecDefinition(EncDefinition(t)) == Some(t)
  {
  }

  lemma HistoryTrip(ms: seq<Message>)
    ensures DecAll(EncAll(ms, EncMessage), DecMessage) == Some(MapAll(ms, EraseMessage))
  {
    var e: Message -> Doc, d: Doc -> Option<Message>, f: Message -> Message := EncMessage, DecMessage, EraseMessage;
    forall m | m in ms ensures d(e(m)) == Some(f(m)) { MessageTrip(m); }
    ListTrip(ms, e, d, f);
  }

  lemma MessageTrip(m: Message)
    ensures DecMessage(EncMessage(m)) == Some(EraseMessage(m))
  {
  }

  lemma StepsTrip(ss: seq<Step>)
    ensures DecAll(EncAll(ss, EncStep), DecStep) == Some(MapAll(ss, EraseStep))
  {
    var e: Step -> Doc, d: Doc -> Option<Step>, f: Step -> Step := EncStep, DecStep, EraseStep;
    forall x | x in ss ensures d(e(x)) == Some(f(x)) { StepTrip(x); }
    ListTrip(ss, e, d, f);
  }

  lemma PolicyTrip(p: Policy)
    ensures DecPolicy(EncPolicy(p)) == Some(p)
  {
    NamesTrip(p.allowed); NamesTrip(p.denied);
    hide EncNames, DecNames;
  }

  lemma LimitsTrip(l: Limits)
    ensures DecLimits(EncLimits(l)) == Some(l)
  {
    OptCountTrip(l.perLoop); OptCountTrip(l.perRound); OptCountTrip(l.timeoutMs);
    ToolLimitsTrip(l.perTool);
    hide EncOptCount, EncOpt, DecOpt, EncToolLimits, DecToolLimits;
  }

  lemma ToolLimitsTrip(o: Option<map<string, nat>>)
    ensures DecOpt(EncOpt(o, EncToolLimits), DecToolLimits) == Some(o)
  {
    var e: map<string, nat> -> Doc, d: Doc -> Option<map<string, nat>> := EncToolLimits, DecToolLimits;
    if o.Some? {
      var m := o.value;
      assert DecToolLimits(EncToolLimits(m)).Some?;
      assert DecToolLimits(EncToolLimits(m)).value == m;
      assert e(m).DMap? && d(e(m)) == Some(m);
    }
  }

  lemma OptPolicyTrip(o: Option<Policy>)
    ensures DecOpt(if o.Some? then EncPolicy(o.value) else DNull, DecPolicy) == Some(o)
  {
    var d: Doc -> Option<Policy> := DecPolicy;
    if o.Some? {
      PolicyTrip(o.value);
      assert EncPolicy(o.value).DRec? && d(EncPolicy(o.value)) == o;
    }
  }

  lemma OptLimitsTrip(o: Option<Limits>)
    ensures DecOpt(EncOpt(o, EncLimits), DecLimits) == Some(o)
  {
    var e: Limits -> Doc, d: Doc -> Option<Limits> := EncLimits, DecLimits;
    if o.Some? {
      LimitsTrip(o.value);
      assert e(o.value).DRec? && d(e(o.value)) == o;
    }
  }

  lemma ConfigTrip(c: Config)
    ensures DecConfig(EncConfig(c)) == Some(c)
  {
    ModeTrip(c.mode);
    OptPolicyTrip(c.policy);
    OptLimitsTrip(c.limits);
    hide EncMode, DecMode, EncPolicy, DecPolicy, EncLimits, DecLimits, EncOpt, DecOpt;
  }

  // ----- the document ----------------------------------------------------

  /** Everything the module takes from outside: digests, the clock and the patterns. */
  datatype Env = Env(
    digest: Doc -> string,
    fingerprint: map<string, Json> -> string,
    parseTime: string -> Option<real>,
    now: real,
    stamp: string,
    secretKey: string -> bool,
    secretValue: string -> bool)

  datatype Document = Document(format: string, schemaVersion: nat, algorithm: string, digest: string, payload: Doc)

  const FORMAT: string := "sulcus-agent-tool-loop-checkpoint"

  ghost predicate DistinctTools(ds: seq<ToolDefinition>) {
    forall i, j | 0 <= i < j < |ds| :: ds[i].name != ds[j].name
  }

  /** `{name: fingerprint(schema)}`; a later definition of the same name wins. */
  function Fingerprints(env: Env, ds: seq<ToolDefinition>): map<string, Doc>
    decreases |ds|
  {
    if ds == [] then map[]
    else Fingerprints(env, ds[..|ds| - 1])[ds[|ds| - 1].name := DStr(env.fingerprint(ds[|ds| - 1].schema))]
  }

  function EncExecution(c: Checkpoint): Doc {
    DRec(map[FRequestedMode := EncMode(c.requested), FEffectiveMode := EncMode(c.effective), FFallbackReason := EncOptText(c.fallback),
             FParallelSafeToolCount := DInt(c.safeCount), FUnsafeToolCount := DInt(c.unsafeCount)])
  }

  ghost function EncResources(c: Counters): Doc {
    DRec(map[FTotalRequested := DInt(c.total), FRoundRequested := EncNatCounts(c.perRound), FToolRequested := EncTextCounts(c.perTool)])
  }

  function DecResources(d: Doc): Option<Counters> {
    var total :- Count(d, FTotalRequested);
    var r :- At(d, FRoundRequested);
    var perRound :- DecCounts(r, DecNat);
    var t :- At(d, FToolRequested);
    var perTool :- DecCounts(t, DecStr);
    Some(Counters(total, perRound, perTool))
  }

  /** `_checkpoint_to_payload`, for a checkpoint whose creation time is known. */
  ghost function Payload(env: Env, c: Checkpoint, created: string): Doc {
    DRec(map[
      FCheckpointId := DStr(c.id), FLoopId := DStr(c.loopId), FCreatedAt := DStr(created), FRoundIndex := DInt(c.round),
      FHistory := DArr(EncAll(c.history, EncMessage)), FResponse := EncResponse(c.response),
      FToolDefinitions := DArr(EncAll(c.definitions, EncDefinition)),
      FCompatibility := DRec(map[FFingerprints := DMap(Fingerprints(env, c.definitions))]),
      FAllowedToolNames := EncNames(c.allowedNames), FConfig := EncConfig(c.config),
      FSteps := DArr(EncAll(c.steps, EncStep)), FToolResults := DArr(EncAll(c.results, EncResult)),
      FPendingApprovals := DArr(EncAll(c.pending, EncPending)), FPreflightOutcomes := DArr(EncAll(c.preflight, EncSlot)),
      FExecution := EncExecution(c), FResources := EncResources(c.counters),
      FRoute := DRec(map[FProvider := DStr(c.provider), FModel := DStr(c.model)])])
  }

  /** `_payload_to_checkpoint` */
  function FromPayload(d: Doc): Option<Checkpoint> {
    var id :- Text(d, FCheckpointId);
    var loopId :- Text(d, FLoopId);
    var created :- Text(d, FCreatedAt);
    var round :- Count(d, FRoundIndex);
    var history :- ListAt(d, FHistory, DecMessage);
    var r :- At(d, FResponse);
    var response :- DecResponse(r);
    var definitions :- ListAt(d, FToolDefinitions, DecDefinition);
    var n :- At(d, FAllowedToolNames);
    var allowed :- DecNames(n);
    var g :- At(d, FConfig);
    var config :- DecConfig(g);
    var steps :- ListAt(d, FSteps, DecStep);
    var results :- ListAt(d, FToolResults, DecResult);
    var pending :- ListAt(d, FPendingApprovals, DecPending);
    var preflight :- ListAt(d, FPreflightOutcomes, DecSlot);
    var x :- At(d, FExecution);
    var execution :- DecExecution(x);
    var s :- At(d, FResources);
    var counters :- DecResources(s);
    var route :- At(d, FRoute);
    var provider :- Text(route, FProvider);
    var model :- Text(route, FModel);
    Some(Checkpoint(1, id, loopId, round, history, response, definitions, allowed, config, steps, results, pending, preflight,
                    execution.requested, execution.effective, execution.fallback, execution.safe, execution.notSafe,
                    counters, provider, model, true, Some(created)))
  }

  datatype Execution = Execution(requested: Mode, effective: Mode, fallback: Option<string>, safe: nat, notSafe: nat)

  function DecExecution(d: Doc): Option<Execution> {
    var q :- At(d, FRequestedMode);
    var requested :- DecMode(q);
    var e :- At(d, FEffectiveMode);
    var effective :- DecMode(e);
    var fallback :- OptText(d, FFallbackReason);
    var safe :- Count(d, FParallelSafeToolCount);
    var notSafe :- Count(d, FUnsafeToolCount);
    Some(Execution(requested, effective, fallback, safe, notSafe))
  }

  /** The checkpoint a save keeps: no message, call or response metadata, marked persistent. */
  function Erase(c: Checkpoint, created: string): Checkpoint {
    c.(version := 1, history := MapAll(c.history, EraseMessage), response := EraseResponse(c.response), steps := MapAll(c.steps, EraseStep),
       persistent := true, createdAt := Some(created))
  }

  lemma ExecutionTrip(c: Checkpoint)
    ensures DecExecution(EncExecution(c)) == Some(Execution(c.requested, c.effective, c.fallback, c.safeCount, c.unsafeCount))
  {
    ModeTrip(c.requested); ModeTrip(c.effective); OptTextTrip(c.fallback);
    hide EncMode, DecMode, EncOptText, DecOpt;
  }

  lemma ResourcesTrip(c: Counters)
    ensures DecResources(EncResources(c)) == Some(c)
  {
    CountersTrip(c);
    hide EncNatCounts, EncTextCounts, DecCounts;
  }

  lemma PayloadHead(env: Env, c: Checkpoint, created: string)
    ensures var d := Payload(env, c, created);
            && At(d, FCheckpointId) == Some(DStr(c.id)) && At(d, FLoopId) == Some(DStr(c.loopId)) && At(d, FCreatedAt) == Some(DStr(created))
            && At(d, FRoundIndex) == Some(DInt(c.round)) && At(d, FHistory) == Some(DArr(EncAll(c.history, EncMessage)))
            && At(d, FResponse) == Some(EncResponse(c.response)) && At(d, FToolDefinitions) == Some(DArr(EncAll(c.definitions, EncDefinition)))
            && At(d, FCompatibility) == Some(DRec(map[FFingerprints := DMap(Fingerprints(env, c.definitions))]))
  {
    hide EncAll, EncResponse, EncNames, EncConfig, EncExecution, EncResources, Fingerprints;
  }

  lemma PayloadBody(env: Env, c: Checkpoint, created: string)
    ensures var d := Payload(env, c, created);
            && At(d, FAllowedToolNames) == Some(EncNames(c.allowedNames)) && At(d, FConfig) == Some(EncConfig(c.config))
            && At(d, FSteps) == Some(DArr(EncAll(c.steps, EncStep))) && At(d, FToolResults) == Some(DArr(EncAll(c.results, EncResult)))
  {
    hide EncAll, EncResponse, EncNames, EncConfig, EncExecution, EncResources, Fingerprints;
  }

  lemma PayloadTail(env: Env, c: Checkpoint, created: string)
    ensures var d := Payload(env, c, created);
            && At(d, FPendingApprovals) == Some(DArr(EncAll(c.pending, EncPending)))
            && At(d, FPreflightOutcomes) == Some(DArr(EncAll(c.preflight, EncSlot)))
            && At(d, FExecution) == Some(EncExecution(c)) && At(d, FResources) == Some(EncResources(c.counters))
            && At(d, FRoute) == Some(DRec(map[FProvider := DStr(c.provider), FModel := DStr(c.model)]))
  {
    hide EncAll, EncResponse, EncNames, EncConfig, EncExecution, EncResources, Fingerprints;
  }

  lemma PayloadTrip(env: Env, c: Checkpoint, created: string)
    ensures FromPayload(Payload(env, c, created)) == Some(Erase(c, created))
  {
    hide EncAll, DecAll, MapAll, EncResponse, DecResponse, EncNames, DecNames, EncConfig, DecConfig, EncExecution, DecExecution,
         EncResources, DecResources, EraseResponse, Fingerprints, Payload;
    HistoryTrip(c.history); ResponseTrip(c.response); DefinitionsTrip(c.definitions); NamesTrip(c.allowedNames); ConfigTrip(c.config);
    StepsTrip(c.steps); ResultsTrip(c.results); PendingsTrip(c.pending); SlotsTrip(c.preflight); ExecutionTrip(c); ResourcesTrip(c.counters);
    PayloadHead(env, c, created); PayloadBody(env, c, created); PayloadTail(env, c, created);
    RouteTrip(c);
    hide At;
  }

  lemma RouteTrip(c: Checkpoint)
    ensures var d := DRec(map[FProvider := DStr(c.provider), FModel := DStr(c.model)]);
            At(d, FProvider) == Some(DStr(c.provider)) && At(d, FModel) == Some(DStr(c.model))
  {
  }

  // ----- secrets ---------------------------------------------------------

  predicate TokenAt(s: string, i: nat) { i + 5 <= |s| && s[i..i + 5] == "token" }

  /** The secret-key pattern is a search, and "token" is one of its alternatives. */
  ghost predicate FindsTokens(env: Env) {
    forall s: string, i: nat :: TokenAt(s, i) ==> env.secretKey(s)
  }

  /** Field names of the schema that the secret-key pattern can match; no other one contains an alternative. */
  predicate SecretField(env: Env, f: Field) {
    match f
    case FPromptTokens => env.secretKey("prompt_tokens")
    case FCompletionTokens => env.secretKey("completion_tokens")
    case FTotalTokens => env.secretKey("total_tokens")
    case _ => false
  }

  predicate CleanJson(env: Env, j: Json)
    decreases j
  {
    match j
    case JStr(s) => !env.secretValue(s)
    case JArr(items) => forall x | x in items :: CleanJson(env, x)
    case JObj(fields) => forall k | k in fields :: !env.secretKey(k) && CleanJson(env, fields[k])
    case _ => true
  }

  /** `_reject_secrets_and_non_json` finds nothing. */
  predicate Clean(env: Env, d: Doc)
    decreases d
  {
    match d
    case DStr(s) => !env.secretValue(s)
    case DArr(items) => forall x | x in items :: Clean(env, x)
    case DRec(fields) => forall f | f in fields :: !SecretField(env, f) && Clean(env, fields[f])
    case DMap(entries) => forall k | k in entries :: !env.secretKey(k) && Clean(env, entries[k])
    case DJson(value) => forall k | k in value :: !env.secretKey(k) && CleanJson(env, value[k])
    case _ => true
  }

  // ----- save and load ---------------------------------------------------

  function Created(env: Env, c: Checkpoint): string {
    if c.createdAt.Some? && c.createdAt.value != "" then c.createdAt.value else env.stamp
  }

  /** `save_checkpoint`: None when it refuses. */
  ghost function Save(env: Env, c: Checkpoint): Option<Document> {
    var payload := Payload(env, c, Created(env, c));
    if c.pending == [] || !Clean(env, payload) then None
    else Some(Document(FORMAT, 1, "sha256", env.digest(payload), payload))
  }

  predicate IdChar(c: char) {
    'a' <= c <= 'z' || 'A' <= c <= 'Z' || '0' <= c <= '9' || c == '_' || c == '.' || c == ':' || c == '-'
  }

  /** `^[A-Za-z0-9][A-Za-z0-9_.:-]{0,255}$` */
  predicate WellFormedId(s: string) {
    && 1 <= |s| <= 256 && (forall c | c in s :: IdChar(c))
    && s[0] != '_' && s[0] != '.' && s[0] != ':' && s[0] != '-'
  }

  predicate Distinct(xs: seq<string>) {
    forall i, j | 0 <= i < j < |xs| :: xs[i] != xs[j]
  }

  function PendingList(c: Checkpoint): seq<string> { seq(|c.pending|, i requires 0 <= i < |c.pending| => c.pending[i].callId) }
  function CallIds(c: Checkpoint): seq<string> { seq(|c.response.toolCalls|, i requires 0 <= i < |c.response.toolCalls| => c.response.toolCalls[i].id) }

  /** `_validate_checkpoint_state` */
  predicate ValidState(c: Checkpoint) {
    && WellFormedId(c.id)
    && c.pending != [] && Distinct(PendingList(c)) && Distinct(CallIds(c))
    && (forall x | x in PendingList(c) :: x in CallIds(c))
    && (forall x | x in CallIds(c) :: WellFormedId(x))
    && |c.preflight| == |c.response.toolCalls|
  }

  predicate FreshEnough(env: Env, created: string, maxAge: Option<real>) {
    && env.parseTime(created).Some? && env.parseTime(created).value <= env.now + 1.0
    && (maxAge.Some? ==> maxAge.value >= 0.0 && env.now - env.parseTime(created).value <= maxAge.value)
  }

  /** `_validate_document` */
  ghost predicate ValidDocument(env: Env, d: Document, maxAge: Option<real>) {
    && d.format == FORMAT && d.schemaVersion == 1 && d.algorithm == "sha256" && d.digest == env.digest(d.payload)
    && var compatibility, definitions, created := At(d.payload, FCompatibility), ListAt(d.payload, FToolDefinitions, DecDefinition), Text(d.payload, FCreatedAt);
    && compatibility.Some? && definitions.Some? && created.Some?
    && At(compatibility.value, FFingerprints) == Some(DMap(Fingerprints(env, definitions.value)))
    && |Fingerprints(env, definitions.value)| == |definitions.value|
    && FreshEnough(env, created.value, maxAge)
  }

  /** `load_checkpoint`: None when it raises. */
  ghost function Load(env: Env, d: Document, maxAge: Option<real>): Option<Checkpoint> {
    if !ValidDocument(env, d, maxAge) then None
    else
      var c := FromPayload(d.payload);
      if c.Some? && ValidState(c.value) then c else None
  }

  lemma FingerprintTurn(env: Env, ds: seq<ToolDefinition>)
    requires ds != []
    ensures Fingerprints(env, ds).Keys == Fingerprints(env, ds[..|ds| - 1]).Keys + {ds[|ds| - 1].name}
  {
  }

  lemma NamesTurn(ds: seq<ToolDefinition>)
    requires ds != []
    ensures (set d | d in ds :: d.name) == (set d | d in ds[..|ds| - 1] :: d.name) + {ds[|ds| - 1].name}
  {
    assert ds == ds[..|ds| - 1] + [ds[|ds| - 1]];
  }

  lemma {:induction false} FingerprintKeys(env: Env, ds: seq<ToolDefinition>)
    ensures Fingerprints(env, ds).Keys == set d | d in ds :: d.name
    ensures |Fingerprints(env, ds).Keys| <= |ds| && (|Fingerprints(env, ds).Keys| == |ds| <==> DistinctTools(ds))
    decreases |ds|
  {
    if ds != [] {
      hide Fingerprints, DistinctTools;
      var n := |ds| - 1;
      FingerprintKeys(env, ds[..n]);
      FingerprintTurn(env, ds);
      NamesTurn(ds);
      DistinctLast(ds);
    }
  }

  lemma DistinctLast(ds: seq<ToolDefinition>)
    requires ds != []
    ensures DistinctTools(ds) <==> DistinctTools(ds[..|ds| - 1]) && forall d | d in ds[..|ds| - 1] :: d.name != ds[|ds| - 1].name
  {
    var n := |ds| - 1;
    assert forall i | 0 <= i < n :: ds[..n][i] == ds[i] && ds[i] in ds[..n];
  }

  /**
   Round trip. A document that save wrote loads if and only if the tool names
   are distinct, the ids and the preflight list are valid, and the creation time
   is neither in the future nor too old; what it loads is the original without
   message, call and response metadata, marked persistent.
   */
  lemma RoundTrip(env: Env, c: Checkpoint, maxAge: Option<real>)
    requires Save(env, c).Some?
    ensures Load(env, Save(env, c).value, maxAge) ==
            if DistinctTools(c.definitions) && ValidState(c) && FreshEnough(env, Created(env, c), maxAge) then Some(Erase(c, Created(env, c))) else None
  {
    var created := Created(env, c);
    var p := Payload(env, c, created);
    hide Payload, FromPayload, Erase, ValidState, Clean, Fingerprints, DistinctTools, FreshEnough;
    PayloadTrip(env, c, created);
    PayloadHead(env, c, created);
    DefinitionsTrip(c.definitions);
    FingerprintKeys(env, c.definitions);
    assert |Fingerprints(env, c.definitions)| == |Fingerprints(env, c.definitions).Keys|;
    ErasedValid(c, created);
    FingerprintField(env, c.definitions);
    hide At, EncAll, DecAll, DecDefinition, EncDefinition;
  }

  lemma FingerprintField(env: Env, ds: seq<ToolDefinition>)
    ensures At(DRec(map[FFingerprints := DMap(Fingerprints(env, ds))]), FFingerprints) == Some(DMap(Fingerprints(env, ds)))
  {
  }

  lemma ErasedValid(c: Checkpoint, created: string)
    ensures ValidState(Erase(c, created)) <==> ValidState(c)
  {
    var e := Erase(c, created);
    assert PendingList(e) == PendingList(c);
    assert CallIds(e) == CallIds(c);
  }

  /** Serialising the loaded checkpoint again gives the same payload. */
  lemma Reserialised(env: Env, c: Checkpoint, created: string)
    ensures Payload(env, Erase(c, created), created) == Payload(env, c, created)
  {
    ErasedCalls(c.response.toolCalls);
    assert EncResponse(EraseResponse(c.response)) == EncResponse(c.response);
    var em: Message -> Doc := EncMessage;
    assert EncAll(MapAll(c.history, EraseMessage), em) == EncAll(c.history, em);
    var es: Step -> Doc := EncStep;
    forall i | 0 <= i < |c.steps| ensures es(EraseStep(c.steps[i])) == es(c.steps[i]) { ErasedStep(c.steps[i]); }
    assert EncAll(MapAll(c.steps, EraseStep), es) == EncAll(c.steps, es);
    hide EncAll, EncResponse, EncNames, EncConfig, EncExecution, EncResources, Fingerprints, MapAll, EraseResponse;
    assert EncExecution(Erase(c, created)) == EncExecution(c) by { ExecutionErased(c, created); }
  }

  lemma ExecutionErased(c: Checkpoint, created: string)
    ensures EncExecution(Erase(c, created)) == EncExecution(c)
  {
  }

  lemma ErasedCalls(cs: seq<ToolCall>)
    ensures EncAll(EraseCalls(cs), EncCall) == EncAll(cs, EncCall)
  {
    var e: ToolCall -> Doc := EncCall;
    forall i | 0 <= i < |cs| ensures e(EraseCall(cs[i])) == e(cs[i]) { assert EncCall(EraseCall(cs[i])) == EncCall(cs[i]); }
    assert EncAll(EraseCalls(cs), e) == EncAll(cs, e);
  }

  lemma ErasedStep(s: Step)
    ensures EncStep(EraseStep(s)) == EncStep(s)
  {
    ErasedCalls(s.toolCalls);
    var er: Response -> Doc := EncResponse;
    if s.response.Some? {
      ErasedCalls(s.response.value.toolCalls);
      assert er(EraseResponse(s.response.value)) == er(s.response.value);
    }
    assert EncOpt(EraseStep(s).response, er) == EncOpt(s.response, er);
    hide EncAll, EncResponse, EncOpt, EraseCalls, EraseResponse;
  }

  /**
   Tampering. Once a document has been saved, one that carries its digest is
   loaded only if it is that very document, whatever else was changed in it, and
   then gives the original back: unless two payloads share a digest.
   */
  lemma TamperingIsRefused(env: Env, c: Checkpoint, d: Document, maxAge: Option<real>)
    requires Save(env, c).Some? && d.digest == Save(env, c).value.digest
    requires env.digest(d.payload) == env.digest(Save(env, c).value.payload) ==> d.payload == Save(env, c).value.payload
    ensures Load(env, d, maxAge).Some? ==> d == Save(env, c).value
    ensures Load(env, d, maxAge).Some? ==> Load(env, d, maxAge) == Some(Erase(c, Created(env, c)))
  {
    DocumentSaved(env, c);
    LoadedIs(env, d, maxAge);
    RoundTrip(env, c, maxAge);
    hide Save, Load, Payload, Erase;
  }

  lemma DocumentSaved(env: Env, c: Checkpoint)
    requires Save(env, c).Some?
    ensures Save(env, c).value == Document(FORMAT, 1, "sha256", env.digest(Save(env, c).value.payload), Save(env, c).value.payload)
  {
    hide Payload, Clean;
  }

  lemma LoadedIs(env: Env, d: Document, maxAge: Option<real>)
    ensures Load(env, d, maxAge).Some? ==> d == Document(FORMAT, 1, "sha256", env.digest(d.payload), d.payload)
  {
    hide FromPayload, ValidState, Fingerprints, FreshEnough;
  }
}
