/**
 What `save_checkpoint` accepts. Its secret filter walks the whole payload; this
 says, for every nested type, which values pass, and so exactly which
 checkpoints can be saved.
 */
module CheckpointSecrets {
  import opened Prelude
  import opened LlmTypes
  import opened ToolLoop
  import opened SortedSets
  import opened CheckpointCodec

  /** What the real patterns do with the words and digests the code itself writes: only "token" keys are caught. */
  ghost predicate UsualPatterns(env: Env) {
    && FindsTokens(env)
    && !env.secretValue("parallel") && !env.secretValue("sequential")
    && forall m: map<string, Json> :: !env.secretValue(env.fingerprint(m))
  }

  predicate TextOk(env: Env, s: string) { !env.secretValue(s) }
  predicate OptTextOk(env: Env, o: Option<string>) { o.Some? ==> TextOk(env, o.value) }

  predicate ObjectOk(env: Env, o: map<string, Json>) {
    forall k | k in o :: !env.secretKey(k) && CleanJson(env, o[k])
  }

  predicate MessageOk(env: Env, m: Message) { TextOk(env, m.role) && TextOk(env, m.content) }

  predicate CallOk(env: Env, c: ToolCall) {
    TextOk(env, c.id) && TextOk(env, c.name) && ObjectOk(env, c.arguments) && TextOk(env, c.provider) && TextOk(env, c.model)
  }

  /** No usage is reported, and every string passes. */
  predicate ResponseOk(env: Env, r: Response) {
    && TextOk(env, r.content) && TextOk(env, r.model) && TextOk(env, r.provider) && r.usage.None?
    && forall c | c in r.toolCalls :: CallOk(env, c)
  }

  /** A tool's name is also a key of the fingerprint table. */
  predicate DefinitionOk(env: Env, t: ToolDefinition) {
    TextOk(env, t.name) && !env.secretKey(t.name) && TextOk(env, t.description) && ObjectOk(env, t.schema)
  }

  predicate ResultOk(env: Env, r: ToolResult) {
    TextOk(env, r.callId) && TextOk(env, r.name) && TextOk(env, r.content) && OptTextOk(env, r.error)
  }

  predicate StepOk(env: Env, s: Step) {
    && TextOk(env, s.kind) && (s.response.Some? ==> ResponseOk(env, s.response.value))
    && (forall c | c in s.toolCalls :: CallOk(env, c)) && (forall r | r in s.toolResults :: ResultOk(env, r))
    && OptTextOk(env, s.errorType) && OptTextOk(env, s.errorCategory) && OptTextOk(env, s.provider) && OptTextOk(env, s.model)
  }

  predicate OutcomeOk(env: Env, o: Outcome) {
    ResultOk(env, o.llmResult) && OptTextOk(env, o.errorType) && OptTextOk(env, o.errorCategory) && OptTextOk(env, o.limitName)
  }

  predicate PendingOk(env: Env, p: PendingApproval) { TextOk(env, p.callId) && TextOk(env, p.toolName) }

  predicate NamesOk(env: Env, names: set<string>) { forall n | n in names :: TextOk(env, n) }

  /** Per-tool limits are stored as an object with the tools as keys. */
  predicate ConfigOk(env: Env, c: Config) {
    && (c.policy.Some? ==> NamesOk(env, c.policy.value.allowed) && NamesOk(env, c.policy.value.denied))
    && (c.limits.Some? && c.limits.value.perTool.Some? ==> forall k | k in c.limits.value.perTool.value :: !env.secretKey(k))
  }

  /** Every key and string of the checkpoint that its callers supplied passes the filter, and no response reports usage. */
  predicate CheckpointOk(env: Env, c: Checkpoint, created: string) {
    && TextOk(env, c.id) && TextOk(env, c.loopId) && TextOk(env, created)
    && (forall m | m in c.history :: MessageOk(env, m)) && ResponseOk(env, c.response)
    && (forall d | d in c.definitions :: DefinitionOk(env, d)) && NamesOk(env, c.allowedNames) && ConfigOk(env, c.config)
    && (forall s | s in c.steps :: StepOk(env, s)) && (forall r | r in c.results :: ResultOk(env, r))
    && (forall p | p in c.pending :: PendingOk(env, p)) && (forall o | o in c.preflight && o.Some? :: OutcomeOk(env, o.value))
    && OptTextOk(env, c.fallback) && NamesOk(env, c.counters.perTool.Keys)
    && TextOk(env, c.provider) && TextOk(env, c.model)
  }

  // ----- the filter, type by type ----------------------------------------

  lemma ListClean<T>(env: Env, xs: seq<T>, enc: T -> Doc)
    ensures Clean(env, DArr(EncAll(xs, enc))) <==> forall x | x in xs :: Clean(env, enc(x))
  {
    var ds := EncAll(xs, enc);
    assert forall i | 0 <= i < |xs| :: ds[i] == enc(xs[i]);
    if Clean(env, DArr(ds)) {
      forall x | x in xs ensures Clean(env, enc(x)) { var i :| 0 <= i < |xs| && xs[i] == x; assert ds[i] in ds; }
    }
  }

  lemma NoFields(env: Env)
    ensures Clean(env, DRec(map[]))
  {
  }

  /** A record is clean when its fields are, one at a time. */
  lemma AddField(env: Env, m: map<Field, Doc>, f: Field, d: Doc)
    requires f !in m && !SecretField(env, f)
    ensures Clean(env, DRec(m[f := d])) <==> Clean(env, DRec(m)) && Clean(env, d)
  {
    if Clean(env, DRec(m[f := d])) {
      forall g | g in m ensures !SecretField(env, g) && Clean(env, m[g]) { assert g in m[f := d] && m[f := d][g] == m[g]; }
      assert m[f := d][f] == d;
    }
  }

  lemma TextClean(env: Env, t: string)
    ensures Clean(env, DStr(t)) <==> TextOk(env, t)
  {
  }

  /** Numbers, flags and nothing always pass. */
  lemma PlainClean(env: Env)
    ensures Clean(env, DNull) && (forall b :: Clean(env, DBool(b))) && forall i :: Clean(env, DInt(i))
  {
  }

  lemma OptCountClean(env: Env, o: Option<nat>)
    ensures Clean(env, EncOptCount(o))
  {
  }

  lemma ModeClean(env: Env, m: Mode)
    requires UsualPatterns(env)
    ensures Clean(env, EncMode(m))
  {
    hide FindsTokens;
  }

  lemma ObjectClean(env: Env, o: map<string, Json>)
    ensures Clean(env, DJson(o)) <==> ObjectOk(env, o)
  {
  }

  lemma MessageClean(env: Env, x: Message)
    ensures Clean(env, EncMessage(x)) <==> MessageOk(env, x)
  {
    hide Clean, FindsTokens, EncAll, EncOpt, EncOptText, EncOptCount, EncMode, EncNames, EncPolicy, EncResult, TextOk, OptTextOk, ObjectOk, NamesOk, CallOk, ResultOk, ResponseOk;
    TextClean(env, x.role); TextClean(env, x.content);
    var m: map<Field, Doc> := map[];
    NoFields(env);
    AddField(env, m, FRole, DStr(x.role)); m := m[FRole := DStr(x.role)];
    AddField(env, m, FContent, DStr(x.content)); m := m[FContent := DStr(x.content)];
    assert EncMessage(x) == DRec(m);
  }

  lemma CallClean(env: Env, c: ToolCall)
    ensures Clean(env, EncCall(c)) <==> CallOk(env, c)
  {
    hide Clean, FindsTokens, EncAll, EncOpt, EncOptText, EncOptCount, EncMode, EncNames, EncPolicy, EncResult, TextOk, OptTextOk, ObjectOk, NamesOk, ResultOk, ResponseOk;
    TextClean(env, c.id); TextClean(env, c.name); ObjectClean(env, c.arguments); TextClean(env, c.provider); TextClean(env, c.model);
    var m: map<Field, Doc> := map[];
    NoFields(env);
    AddField(env, m, FId, DStr(c.id)); m := m[FId := DStr(c.id)];
    AddField(env, m, FName, DStr(c.name)); m := m[FName := DStr(c.name)];
    AddField(env, m, FArguments, DJson(c.arguments)); m := m[FArguments := DJson(c.arguments)];
    AddField(env, m, FProvider, DStr(c.provider)); m := m[FProvider := DStr(c.provider)];
    AddField(env, m, FModel, DStr(c.model)); m := m[FModel := DStr(c.model)];
    assert EncCall(c) == DRec(m);
  }

  lemma CallsClean(env: Env, cs: seq<ToolCall>)
    ensures Clean(env, DArr(EncAll(cs, EncCall))) <==> forall c | c in cs :: CallOk(env, c)
  {
    var e: ToolCall -> Doc := EncCall;
    forall c: ToolCall ensures Clean(env, e(c)) <==> CallOk(env, c) { CallClean(env, c); }
    ListClean(env, cs, e);
  }

  lemma UsageClean(env: Env, o: Option<Usage>)
    requires FindsTokens(env)
    ensures Clean(env, EncOpt(o, EncUsage)) <==> o.None?
  {
    assert env.secretKey("prompt_tokens") by { assert TokenAt("prompt_tokens", 7); }
    var e: Usage -> Doc := EncUsage;
    if o.Some? {
      assert EncOpt(o, e) == EncUsage(o.value);
      assert FPromptTokens in EncUsage(o.value).fields && SecretField(env, FPromptTokens);
    }
  }

  lemma ResponseClean(env: Env, r: Response)
    requires FindsTokens(env)
    ensures Clean(env, EncResponse(r)) <==> ResponseOk(env, r)
  {
    hide Clean, FindsTokens, EncAll, EncOpt, EncOptText, EncOptCount, EncMode, EncNames, EncPolicy, EncResult, TextOk, OptTextOk, ObjectOk, NamesOk, CallOk, ResultOk;
    TextClean(env, r.content); TextClean(env, r.model); TextClean(env, r.provider);
    UsageClean(env, r.usage);
    CallsClean(env, r.toolCalls);
    var m: map<Field, Doc> := map[];
    NoFields(env);
    AddField(env, m, FContent, DStr(r.content)); m := m[FContent := DStr(r.content)];
    AddField(env, m, FModel, DStr(r.model)); m := m[FModel := DStr(r.model)];
    AddField(env, m, FProvider, DStr(r.provider)); m := m[FProvider := DStr(r.provider)];
    AddField(env, m, FUsage, EncOpt(r.usage, EncUsage)); m := m[FUsage := EncOpt(r.usage, EncUsage)];
    AddField(env, m, FToolCalls, DArr(EncAll(r.toolCalls, EncCall))); m := m[FToolCalls := DArr(EncAll(r.toolCalls, EncCall))];
    assert EncResponse(r) == DRec(m);
  }

  lemma DefinitionClean(env: Env, t: ToolDefinition)
    ensures !env.secretKey(t.name) ==> (Clean(env, EncDefinition(t)) <==> DefinitionOk(env, t))
  {
    hide Clean, FindsTokens, EncAll, EncOpt, EncOptText, EncOptCount, EncMode, EncNames, EncPolicy, EncResult, TextOk, OptTextOk, ObjectOk, NamesOk, CallOk, ResultOk, ResponseOk;
    TextClean(env, t.name); TextClean(env, t.description); ObjectClean(env, t.schema);
    var m: map<Field, Doc> := map[];
    NoFields(env);
    AddField(env, m, FName, DStr(t.name)); m := m[FName := DStr(t.name)];
    AddField(env, m, FDescription, DStr(t.description)); m := m[FDescription := DStr(t.description)];
    AddField(env, m, FParametersSchema, DJson(t.schema)); m := m[FParametersSchema := DJson(t.schema)];
    assert EncDefinition(t) == DRec(m);
  }

  lemma OptTextClean(env: Env, o: Option<string>)
    ensures Clean(env, EncOptText(o)) <==> OptTextOk(env, o)
  {
  }

  lemma ResultClean(env: Env, r: ToolResult)
    ensures Clean(env, EncResult(r)) <==> ResultOk(env, r)
  {
    hide Clean, FindsTokens, EncAll, EncOpt, EncOptText, EncOptCount, EncMode, EncNames, EncPolicy, TextOk, OptTextOk, ObjectOk, NamesOk, CallOk, ResponseOk;
    PlainClean(env); TextClean(env, r.callId); TextClean(env, r.name); TextClean(env, r.content); OptTextClean(env, r.error);
    var m: map<Field, Doc> := map[];
    NoFields(env);
    AddField(env, m, FToolCallId, DStr(r.callId)); m := m[FToolCallId := DStr(r.callId)];
    AddField(env, m, FName, DStr(r.name)); m := m[FName := DStr(r.name)];
    AddField(env, m, FContent, DStr(r.content)); m := m[FContent := DStr(r.content)];
    AddField(env, m, FSuccess, DBool(r.success)); m := m[FSuccess := DBool(r.success)];
    AddField(env, m, FError, EncOptText(r.error)); m := m[FError := EncOptText(r.error)];
    assert EncResult(r) == DRec(m);
  }

  lemma ResultsClean(env: Env, rs: seq<ToolResult>)
    ensures Clean(env, DArr(EncAll(rs, EncResult))) <==> forall r | r in rs :: ResultOk(env, r)
  {
    var e: ToolResult -> Doc := EncResult;
    forall r: ToolResult ensures Clean(env, e(r)) <==> ResultOk(env, r) { ResultClean(env, r); }
    ListClean(env, rs, e);
  }

  lemma OptResponseClean(env: Env, o: Option<Response>)
    requires FindsTokens(env)
    ensures Clean(env, EncOpt(o, EncResponse)) <==> (o.Some? ==> ResponseOk(env, o.value))
  {
    var e: Response -> Doc := EncResponse;
    if o.Some? { ResponseClean(env, o.value); assert EncOpt(o, e) == EncResponse(o.value); }
    hide EncResponse, ResponseOk;
  }

  lemma StepClean(env: Env, s: Step)
    requires FindsTokens(env)
    ensures Clean(env, EncStep(s)) <==> StepOk(env, s)
  {
    hide Clean, FindsTokens, EncAll, EncOpt, EncOptText, EncOptCount, EncMode, EncNames, EncPolicy, EncResult, TextOk, OptTextOk, ObjectOk, NamesOk, CallOk, ResultOk, ResponseOk;
    PlainClean(env); TextClean(env, s.kind); OptResponseClean(env, s.response);
    CallsClean(env, s.toolCalls);
    ResultsClean(env, s.toolResults);
    OptTextClean(env, s.errorType); OptTextClean(env, s.errorCategory); OptTextClean(env, s.provider); OptTextClean(env, s.model);
    var m: map<Field, Doc> := map[];
    NoFields(env);
    AddField(env, m, FIndex, DInt(s.index)); m := m[FIndex := DInt(s.index)];
    AddField(env, m, FKind, DStr(s.kind)); m := m[FKind := DStr(s.kind)];
    AddField(env, m, FResponse, EncOpt(s.response, EncResponse)); m := m[FResponse := EncOpt(s.response, EncResponse)];
    AddField(env, m, FToolCalls, DArr(EncAll(s.toolCalls, EncCall))); m := m[FToolCalls := DArr(EncAll(s.toolCalls, EncCall))];
    AddField(env, m, FToolResults, DArr(EncAll(s.toolResults, EncResult))); m := m[FToolResults := DArr(EncAll(s.toolResults, EncResult))];
    AddField(env, m, FSuccess, DBool(s.success)); m := m[FSuccess := DBool(s.success)];
    AddField(env, m, FErrorType, EncOptText(s.errorType)); m := m[FErrorType := EncOptText(s.errorType)];
    AddField(env, m, FErrorCategory, EncOptText(s.errorCategory)); m := m[FErrorCategory := EncOptText(s.errorCategory)];
    AddField(env, m, FProvider, EncOptText(s.provider)); m := m[FProvider := EncOptText(s.provider)];
    AddField(env, m, FModel, EncOptText(s.model)); m := m[FModel := EncOptText(s.model)];
    assert EncStep(s) == DRec(m);
  }

  lemma StepsClean(env: Env, ss: seq<Step>)
    requires FindsTokens(env)
    ensures Clean(env, DArr(EncAll(ss, EncStep))) <==> forall s | s in ss :: StepOk(env, s)
  {
    var e: Step -> Doc := EncStep;
    forall s: Step ensures Clean(env, e(s)) <==> StepOk(env, s) { StepClean(env, s); }
    hide StepOk, EncStep;
    ListClean(env, ss, e);
  }

  lemma OutcomeClean(env: Env, o: Outcome)
    ensures Clean(env, EncOutcome(o)) <==> OutcomeOk(env, o)
  {
    hide Clean, FindsTokens, EncAll, EncOpt, EncOptText, EncOptCount, EncMode, EncNames, EncPolicy, EncResult, TextOk, OptTextOk, ObjectOk, NamesOk, CallOk, ResultOk, ResponseOk;
    PlainClean(env); OptCountClean(env, o.limitValue);
    ResultClean(env, o.llmResult);
    OptTextClean(env, o.errorType); OptTextClean(env, o.errorCategory); OptTextClean(env, o.limitName);
    var m: map<Field, Doc> := map[];
    NoFields(env);
    AddField(env, m, FLlmResult, EncResult(o.llmResult)); m := m[FLlmResult := EncResult(o.llmResult)];
    AddField(env, m, FSuccess, DBool(o.success)); m := m[FSuccess := DBool(o.success)];
    AddField(env, m, FErrorType, EncOptText(o.errorType)); m := m[FErrorType := EncOptText(o.errorType)];
    AddField(env, m, FErrorCategory, EncOptText(o.errorCategory)); m := m[FErrorCategory := EncOptText(o.errorCategory)];
    AddField(env, m, FDenied, DBool(o.denied)); m := m[FDenied := DBool(o.denied)];
    AddField(env, m, FResourceDenied, DBool(o.resourceDenied)); m := m[FResourceDenied := DBool(o.resourceDenied)];
    AddField(env, m, FTimedOut, DBool(o.timedOut)); m := m[FTimedOut := DBool(o.timedOut)];
    AddField(env, m, FLimitName, EncOptText(o.limitName)); m := m[FLimitName := EncOptText(o.limitName)];
    AddField(env, m, FLimitValue, EncOptCount(o.limitValue)); m := m[FLimitValue := EncOptCount(o.limitValue)];
    assert EncOutcome(o) == DRec(m);
  }

  lemma SlotsClean(env: Env, os: seq<Option<Outcome>>)
    ensures Clean(env, DArr(EncAll(os, EncSlot))) <==> forall o | o in os && o.Some? :: OutcomeOk(env, o.value)
  {
    var e: Option<Outcome> -> Doc := EncSlot;
    forall o: Option<Outcome> ensures Clean(env, e(o)) <==> (o.Some? ==> OutcomeOk(env, o.value)) { SlotClean(env, o); }
    hide OutcomeOk, EncSlot;
    ListClean(env, os, e);
  }

  lemma SlotClean(env: Env, o: Option<Outcome>)
    ensures Clean(env, EncSlot(o)) <==> (o.Some? ==> OutcomeOk(env, o.value))
  {
    var e: Outcome -> Doc := EncOutcome;
    if o.Some? { OutcomeClean(env, o.value); assert EncOpt(o, e) == EncOutcome(o.value); }
    hide OutcomeOk, EncOutcome;
  }

  lemma PendingClean(env: Env, p: PendingApproval)
    requires UsualPatterns(env)
    ensures Clean(env, EncPending(p)) <==> PendingOk(env, p)
  {
    hide Clean, FindsTokens, EncAll, EncOpt, EncOptText, EncOptCount, EncMode, EncNames, EncPolicy, EncResult, TextOk, OptTextOk, ObjectOk, NamesOk, CallOk, ResultOk, ResponseOk;
    PlainClean(env); TextClean(env, p.callId); TextClean(env, p.toolName); ModeClean(env, p.requested); ModeClean(env, p.effective);
    var m: map<Field, Doc> := map[];
    NoFields(env);
    AddField(env, m, FToolCallId, DStr(p.callId)); m := m[FToolCallId := DStr(p.callId)];
    AddField(env, m, FToolName, DStr(p.toolName)); m := m[FToolName := DStr(p.toolName)];
    AddField(env, m, FRoundIndex, DInt(p.round)); m := m[FRoundIndex := DInt(p.round)];
    AddField(env, m, FCallIndex, DInt(p.callIndex)); m := m[FCallIndex := DInt(p.callIndex)];
    AddField(env, m, FRequestedExecutionMode, EncMode(p.requested)); m := m[FRequestedExecutionMode := EncMode(p.requested)];
    AddField(env, m, FEffectiveExecutionMode, EncMode(p.effective)); m := m[FEffectiveExecutionMode := EncMode(p.effective)];
    assert EncPending(p) == DRec(m);
  }

  lemma PendingsClean(env: Env, ps: seq<PendingApproval>)
    requires UsualPatterns(env)
    ensures Clean(env, DArr(EncAll(ps, EncPending))) <==> forall p | p in ps :: PendingOk(env, p)
  {
    var e: PendingApproval -> Doc := EncPending;
    forall p: PendingApproval ensures Clean(env, e(p)) <==> PendingOk(env, p) { PendingClean(env, p); }
    ListClean(env, ps, e);
  }

  lemma HistoryClean(env: Env, ms: seq<Message>)
    ensures Clean(env, DArr(EncAll(ms, EncMessage))) <==> forall m | m in ms :: MessageOk(env, m)
  {
    var e: Message -> Doc := EncMessage;
    forall m: Message ensures Clean(env, e(m)) <==> MessageOk(env, m) { MessageClean(env, m); }
    ListClean(env, ms, e);
  }

  lemma NamesClean(env: Env, names: set<string>)
    ensures Clean(env, EncNames(names)) <==> NamesOk(env, names)
  {
    TextLeTotal();
    SortedIs(names, TextLe);
    var xs := Sorted(names, TextLe);
    var e: string -> Doc := EncStr;
    ListClean(env, xs, e);
    hide Sorted, TextLe;
    forall n: string ensures n in xs <==> n in names { assert n in xs <==> n in (set x | x in xs); }
  }

  lemma ConfigClean(env: Env, c: Config)
    requires UsualPatterns(env)
    ensures Clean(env, EncConfig(c)) <==> ConfigOk(env, c)
  {
    hide Clean, FindsTokens, EncAll, EncOpt, EncOptText, EncOptCount, EncMode, EncNames, EncPolicy, EncResult, TextOk, OptTextOk, ObjectOk, NamesOk, CallOk, ResultOk, ResponseOk;
    PlainClean(env); ModeClean(env, c.mode);
    if c.policy.Some? { PolicyClean(env, c.policy.value); }
    OptLimitsClean(env, c.limits);
    var m: map<Field, Doc> := map[];
    NoFields(env);
    AddField(env, m, FMaxSteps, DInt(c.maxSteps)); m := m[FMaxSteps := DInt(c.maxSteps)];
    AddField(env, m, FRequireToolApproval, DBool(c.requireApproval)); m := m[FRequireToolApproval := DBool(c.requireApproval)];
    AddField(env, m, FStopOnToolError, DBool(c.stopOnToolError)); m := m[FStopOnToolError := DBool(c.stopOnToolError)];
    AddField(env, m, FToolExecutionMode, EncMode(c.mode)); m := m[FToolExecutionMode := EncMode(c.mode)];
    AddField(env, m, FIncludeIntermediateSteps, DBool(c.includeSteps)); m := m[FIncludeIntermediateSteps := DBool(c.includeSteps)];
    AddField(env, m, FToolPermissionPolicy, if c.policy.Some? then EncPolicy(c.policy.value) else DNull); m := m[FToolPermissionPolicy := if c.policy.Some? then EncPolicy(c.policy.value) else DNull];
    AddField(env, m, FToolResourceLimits, EncOpt(c.limits, EncLimits)); m := m[FToolResourceLimits := EncOpt(c.limits, EncLimits)];
    assert EncConfig(c) == DRec(m);
  }

  lemma PolicyClean(env: Env, p: Policy)
    ensures Clean(env, EncPolicy(p)) <==> NamesOk(env, p.allowed) && NamesOk(env, p.denied)
  {
    hide Clean, FindsTokens, EncAll, EncOpt, EncOptText, EncOptCount, EncMode, EncNames, EncResult, TextOk, OptTextOk, ObjectOk, NamesOk, CallOk, ResultOk, ResponseOk;
    PlainClean(env); NamesClean(env, p.allowed); NamesClean(env, p.denied);
    var m: map<Field, Doc> := map[];
    NoFields(env);
    AddField(env, m, FAllowedTools, EncNames(p.allowed)); m := m[FAllowedTools := EncNames(p.allowed)];
    AddField(env, m, FDeniedTools, EncNames(p.denied)); m := m[FDeniedTools := EncNames(p.denied)];
    AddField(env, m, FDefaultAllow, DBool(p.defaultAllow)); m := m[FDefaultAllow := DBool(p.defaultAllow)];
    assert EncPolicy(p) == DRec(m);
  }

  lemma OptLimitsClean(env: Env, o: Option<Limits>)
    ensures Clean(env, EncOpt(o, EncLimits)) <==> (o.Some? && o.value.perTool.Some? ==> forall k | k in o.value.perTool.value :: !env.secretKey(k))
  {
    var e: Limits -> Doc := EncLimits;
    if o.Some? { LimitsClean(env, o.value); assert EncOpt(o, e) == EncLimits(o.value); }
    hide EncLimits;
  }

  lemma OptToolLimitsClean(env: Env, o: Option<map<string, nat>>)
    ensures Clean(env, EncOpt(o, EncToolLimits)) <==> (o.Some? ==> forall k | k in o.value :: !env.secretKey(k))
  {
    var e: map<string, nat> -> Doc := EncToolLimits;
    if o.Some? { assert EncOpt(o, e) == EncToolLimits(o.value); }
  }

  lemma LimitsClean(env: Env, l: Limits)
    ensures Clean(env, EncLimits(l)) <==> (l.perTool.Some? ==> forall k | k in l.perTool.value :: !env.secretKey(k))
  {
    hide Clean, FindsTokens, EncAll, EncOpt, EncOptText, EncOptCount, EncMode, EncNames, EncPolicy, EncResult, TextOk, OptTextOk, ObjectOk, NamesOk, CallOk, ResultOk, ResponseOk;
    OptCountClean(env, l.perLoop); OptCountClean(env, l.perRound); OptCountClean(env, l.timeoutMs);
    OptToolLimitsClean(env, l.perTool);
    var m: map<Field, Doc> := map[];
    NoFields(env);
    AddField(env, m, FMaxToolCallsPerLoop, EncOptCount(l.perLoop)); m := m[FMaxToolCallsPerLoop := EncOptCount(l.perLoop)];
    AddField(env, m, FMaxToolCallsPerRound, EncOptCount(l.perRound)); m := m[FMaxToolCallsPerRound := EncOptCount(l.perRound)];
    AddField(env, m, FMaxCallsPerTool, EncOpt(l.perTool, EncToolLimits)); m := m[FMaxCallsPerTool := EncOpt(l.perTool, EncToolLimits)];
    AddField(env, m, FToolTimeoutMs, EncOptCount(l.timeoutMs)); m := m[FToolTimeoutMs := EncOptCount(l.timeoutMs)];
    assert EncLimits(l) == DRec(m);
  }

  /** Definitions and their fingerprints together. */
  lemma DefinitionsClean(env: Env, ds: seq<ToolDefinition>)
    requires UsualPatterns(env)
    ensures Clean(env, DArr(EncAll(ds, EncDefinition))) && Clean(env, DMap(Fingerprints(env, ds))) <==> forall d | d in ds :: DefinitionOk(env, d)
  {
    var e: ToolDefinition -> Doc := EncDefinition;
    ListClean(env, ds, e);
    FingerprintsClean(env, ds);
    forall t: ToolDefinition ensures DefinitionOk(env, t) <==> !env.secretKey(t.name) && Clean(env, e(t)) { DefinitionClean(env, t); }
    hide DefinitionOk, EncDefinition, Fingerprints, EncAll;
  }

  lemma FingerprintsClean(env: Env, ds: seq<ToolDefinition>)
    requires UsualPatterns(env)
    ensures Clean(env, DMap(Fingerprints(env, ds))) <==> forall d | d in ds :: !env.secretKey(d.name)
  {
    FingerprintKeys(env, ds);
    FingerprintValues(env, ds);
    hide Fingerprints, FindsTokens;
    var m := Fingerprints(env, ds);
    assert forall d | d in ds :: d.name in m.Keys;
  }

  lemma {:induction false} FingerprintValues(env: Env, ds: seq<ToolDefinition>)
    requires UsualPatterns(env)
    ensures forall k | k in Fingerprints(env, ds) :: Clean(env, Fingerprints(env, ds)[k])
    decreases |ds|
  {
    if ds != [] { FingerprintValues(env, ds[..|ds| - 1]); }
    hide FindsTokens;
  }

  lemma PairsClean<K>(env: Env, keys: seq<K>, m: map<K, nat>, enc: K -> Doc)
    requires forall k | k in keys :: k in m
    ensures Clean(env, DArr(PairDocs(keys, m, enc))) <==> forall k | k in keys :: Clean(env, enc(k))
  {
    var ds := PairDocs(keys, m, enc);
    forall i | 0 <= i < |keys| ensures Clean(env, ds[i]) <==> Clean(env, enc(keys[i])) {
      assert ds[i] == DArr([enc(keys[i]), DInt(m[keys[i]])]);
      assert forall x | x in [enc(keys[i]), DInt(m[keys[i]])] :: x == enc(keys[i]) || x == DInt(m[keys[i]]);
      assert [enc(keys[i]), DInt(m[keys[i]])][0] in [enc(keys[i]), DInt(m[keys[i]])];
    }
    if Clean(env, DArr(ds)) {
      forall k | k in keys ensures Clean(env, enc(k)) { var i :| 0 <= i < |keys| && keys[i] == k; assert ds[i] in ds; }
    }
  }

  lemma CountsClean(env: Env, c: Counters)
    ensures Clean(env, EncNatCounts(c.perRound)) && (Clean(env, EncTextCounts(c.perTool)) <==> NamesOk(env, c.perTool.Keys))
  {
    var en: nat -> Doc, es: string -> Doc := EncNat, EncStr;
    PairsClean(env, NatKeys(c.perRound), c.perRound, en);
    PairsClean(env, TextKeys(c.perTool), c.perTool, es);
    var ks := TextKeys(c.perTool);
    forall k: string ensures k in ks <==> k in c.perTool { assert k in ks <==> k in (set x | x in ks); }
    hide TextKeys, NatKeys, PairDocs;
  }

  lemma ResourcesClean(env: Env, c: Counters)
    ensures Clean(env, EncResources(c)) <==> NamesOk(env, c.perTool.Keys)
  {
    hide Clean, EncNatCounts, EncTextCounts, NamesOk;
    PlainClean(env); CountsClean(env, c);
    var m: map<Field, Doc> := map[];
    NoFields(env);
    AddField(env, m, FTotalRequested, DInt(c.total)); m := m[FTotalRequested := DInt(c.total)];
    AddField(env, m, FRoundRequested, EncNatCounts(c.perRound)); m := m[FRoundRequested := EncNatCounts(c.perRound)];
    AddField(env, m, FToolRequested, EncTextCounts(c.perTool)); m := m[FToolRequested := EncTextCounts(c.perTool)];
    assert EncResources(c) == DRec(m);
  }

  lemma ExecutionClean(env: Env, c: Checkpoint)
    requires UsualPatterns(env)
    ensures Clean(env, EncExecution(c)) <==> OptTextOk(env, c.fallback)
  {
    hide Clean, FindsTokens, EncAll, EncOpt, EncOptText, EncOptCount, EncMode, EncNames, EncPolicy, EncResult, TextOk, OptTextOk, ObjectOk, NamesOk, CallOk, ResultOk, ResponseOk;
    PlainClean(env); ModeClean(env, c.requested); ModeClean(env, c.effective); OptTextClean(env, c.fallback);
    var m: map<Field, Doc> := map[];
    NoFields(env);
    AddField(env, m, FRequestedMode, EncMode(c.requested)); m := m[FRequestedMode := EncMode(c.requested)];
    AddField(env, m, FEffectiveMode, EncMode(c.effective)); m := m[FEffectiveMode := EncMode(c.effective)];
    AddField(env, m, FFallbackReason, EncOptText(c.fallback)); m := m[FFallbackReason := EncOptText(c.fallback)];
    AddField(env, m, FParallelSafeToolCount, DInt(c.safeCount)); m := m[FParallelSafeToolCount := DInt(c.safeCount)];
    AddField(env, m, FUnsafeToolCount, DInt(c.unsafeCount)); m := m[FUnsafeToolCount := DInt(c.unsafeCount)];
    assert EncExecution(c) == DRec(m);
  }

  lemma RouteClean(env: Env, c: Checkpoint)
    ensures Clean(env, DRec(map[FProvider := DStr(c.provider), FModel := DStr(c.model)])) <==> TextOk(env, c.provider) && TextOk(env, c.model)
  {
    hide Clean, TextOk;
    TextClean(env, c.provider); TextClean(env, c.model);
    NoFields(env);
    AddField(env, map[], FProvider, DStr(c.provider));
    AddField(env, map[FProvider := DStr(c.provider)], FModel, DStr(c.model));
  }

  lemma CompatibilityClean(env: Env, d: Doc)
    ensures Clean(env, DRec(map[FFingerprints := d])) <==> Clean(env, d)
  {
    hide Clean;
    NoFields(env);
    AddField(env, map[], FFingerprints, d);
  }

  /** The first half of the payload's fields. */
  ghost function HeadFields(env: Env, c: Checkpoint, created: string): map<Field, Doc> {
    map[
      FCheckpointId := DStr(c.id), FLoopId := DStr(c.loopId), FCreatedAt := DStr(created),
      FRoundIndex := DInt(c.round), FHistory := DArr(EncAll(c.history, EncMessage)), FResponse := EncResponse(c.response),
      FToolDefinitions := DArr(EncAll(c.definitions, EncDefinition)),
      FCompatibility := DRec(map[FFingerprints := DMap(Fingerprints(env, c.definitions))]),
      FAllowedToolNames := EncNames(c.allowedNames)]
  }

  lemma HeadClean(env: Env, c: Checkpoint, created: string)
    ensures Clean(env, DRec(HeadFields(env, c, created))) <==>
            && TextOk(env, c.id) && TextOk(env, c.loopId) && TextOk(env, created)
            && Clean(env, DArr(EncAll(c.history, EncMessage))) && Clean(env, EncResponse(c.response))
            && Clean(env, DArr(EncAll(c.definitions, EncDefinition)))
            && Clean(env, DRec(map[FFingerprints := DMap(Fingerprints(env, c.definitions))]))
            && Clean(env, EncNames(c.allowedNames))
    ensures HeadFields(env, c, created).Keys == {FCheckpointId, FLoopId, FCreatedAt, FRoundIndex, FHistory, FResponse, FToolDefinitions, FCompatibility, FAllowedToolNames}
  {
    hide Clean, TextOk, EncAll, EncResponse, EncNames, Fingerprints;
    PlainClean(env); TextClean(env, c.id); TextClean(env, c.loopId); TextClean(env, created);
    var m: map<Field, Doc> := map[];
    NoFields(env);
    AddField(env, m, FCheckpointId, DStr(c.id)); m := m[FCheckpointId := DStr(c.id)];
    AddField(env, m, FLoopId, DStr(c.loopId)); m := m[FLoopId := DStr(c.loopId)];
    AddField(env, m, FCreatedAt, DStr(created)); m := m[FCreatedAt := DStr(created)];
    AddField(env, m, FRoundIndex, DInt(c.round)); m := m[FRoundIndex := DInt(c.round)];
    AddField(env, m, FHistory, DArr(EncAll(c.history, EncMessage))); m := m[FHistory := DArr(EncAll(c.history, EncMessage))];
    AddField(env, m, FResponse, EncResponse(c.response)); m := m[FResponse := EncResponse(c.response)];
    AddField(env, m, FToolDefinitions, DArr(EncAll(c.definitions, EncDefinition))); m := m[FToolDefinitions := DArr(EncAll(c.definitions, EncDefinition))];
    AddField(env, m, FCompatibility, DRec(map[FFingerprints := DMap(Fingerprints(env, c.definitions))])); m := m[FCompatibility := DRec(map[FFingerprints := DMap(Fingerprints(env, c.definitions))])];
    AddField(env, m, FAllowedToolNames, EncNames(c.allowedNames)); m := m[FAllowedToolNames := EncNames(c.allowedNames)];
    assert HeadFields(env, c, created) == m;
  }

  /** The other half on top of it. */
  ghost function WithTail(c: Checkpoint, head: map<Field, Doc>): map<Field, Doc> {
    head[FConfig := EncConfig(c.config)]
      [FSteps := DArr(EncAll(c.steps, EncStep))]
      [FToolResults := DArr(EncAll(c.results, EncResult))]
      [FPendingApprovals := DArr(EncAll(c.pending, EncPending))]
      [FPreflightOutcomes := DArr(EncAll(c.preflight, EncSlot))]
      [FExecution := EncExecution(c)]
      [FResources := EncResources(c.counters)]
      [FRoute := DRec(map[FProvider := DStr(c.provider), FModel := DStr(c.model)])]
  }

  lemma TailClean(env: Env, c: Checkpoint, head: map<Field, Doc>)
    requires head.Keys == {FCheckpointId, FLoopId, FCreatedAt, FRoundIndex, FHistory, FResponse, FToolDefinitions, FCompatibility, FAllowedToolNames}
    ensures Clean(env, DRec(WithTail(c, head))) <==>
            && Clean(env, DRec(head)) && Clean(env, EncConfig(c.config))
            && Clean(env, DArr(EncAll(c.steps, EncStep))) && Clean(env, DArr(EncAll(c.results, EncResult)))
            && Clean(env, DArr(EncAll(c.pending, EncPending))) && Clean(env, DArr(EncAll(c.preflight, EncSlot)))
            && Clean(env, EncExecution(c)) && Clean(env, EncResources(c.counters))
            && Clean(env, DRec(map[FProvider := DStr(c.provider), FModel := DStr(c.model)]))
  {
    hide Clean, EncAll, EncConfig, EncExecution, EncResources;
    var m := head;
    AddField(env, m, FConfig, EncConfig(c.config)); m := m[FConfig := EncConfig(c.config)];
    AddField(env, m, FSteps, DArr(EncAll(c.steps, EncStep))); m := m[FSteps := DArr(EncAll(c.steps, EncStep))];
    AddField(env, m, FToolResults, DArr(EncAll(c.results, EncResult))); m := m[FToolResults := DArr(EncAll(c.results, EncResult))];
    AddField(env, m, FPendingApprovals, DArr(EncAll(c.pending, EncPending))); m := m[FPendingApprovals := DArr(EncAll(c.pending, EncPending))];
    AddField(env, m, FPreflightOutcomes, DArr(EncAll(c.preflight, EncSlot))); m := m[FPreflightOutcomes := DArr(EncAll(c.preflight, EncSlot))];
    AddField(env, m, FExecution, EncExecution(c)); m := m[FExecution := EncExecution(c)];
    AddField(env, m, FResources, EncResources(c.counters)); m := m[FResources := EncResources(c.counters)];
    AddField(env, m, FRoute, DRec(map[FProvider := DStr(c.provider), FModel := DStr(c.model)])); m := m[FRoute := DRec(map[FProvider := DStr(c.provider), FModel := DStr(c.model)])];
    assert m == WithTail(c, head);
  }

  lemma PayloadIs(env: Env, c: Checkpoint, created: string)
    ensures Payload(env, c, created) == DRec(WithTail(c, HeadFields(env, c, created)))
  {
    hide EncAll, EncResponse, EncNames, EncConfig, EncExecution, EncResources, Fingerprints;
  }

  /** The payload is clean exactly when each of its parts is. */
  lemma PayloadParts(env: Env, c: Checkpoint, created: string)
    ensures Clean(env, Payload(env, c, created)) <==>
            && TextOk(env, c.id) && TextOk(env, c.loopId) && TextOk(env, created)
            && Clean(env, DArr(EncAll(c.history, EncMessage))) && Clean(env, EncResponse(c.response))
            && Clean(env, DArr(EncAll(c.definitions, EncDefinition)))
            && Clean(env, DRec(map[FFingerprints := DMap(Fingerprints(env, c.definitions))]))
            && Clean(env, EncNames(c.allowedNames)) && Clean(env, EncConfig(c.config))
            && Clean(env, DArr(EncAll(c.steps, EncStep))) && Clean(env, DArr(EncAll(c.results, EncResult)))
            && Clean(env, DArr(EncAll(c.pending, EncPending))) && Clean(env, DArr(EncAll(c.preflight, EncSlot)))
            && Clean(env, EncExecution(c)) && Clean(env, EncResources(c.counters))
            && Clean(env, DRec(map[FProvider := DStr(c.provider), FModel := DStr(c.model)]))
  {
    hide *;
    PayloadIs(env, c, created);
    HeadClean(env, c, created);
    TailClean(env, c, HeadFields(env, c, created));
  }

  /**
   What can be saved, exactly: a checkpoint with pending approvals, in which no
   response, current or logged, reports usage, and every key and string that came
   from a caller, a tool or an LLM passes the filter. Tool names count as keys.
   */
  lemma SavedIff(env: Env, c: Checkpoint)
    requires UsualPatterns(env)
    ensures Save(env, c).Some? <==> c.pending != [] && CheckpointOk(env, c, Created(env, c))
  {
    hide *;
    var created := Created(env, c);
    SaveIs(env, c);
    PayloadParts(env, c, created);
    UsualTokens(env);
    HistoryClean(env, c.history); ResponseClean(env, c.response);
    DefinitionsClean(env, c.definitions); CompatibilityClean(env, DMap(Fingerprints(env, c.definitions)));
    NamesClean(env, c.allowedNames); ConfigClean(env, c.config);
    StepsClean(env, c.steps); ResultsClean(env, c.results); PendingsClean(env, c.pending); SlotsClean(env, c.preflight);
    ExecutionClean(env, c); ResourcesClean(env, c.counters); RouteClean(env, c);
    CheckpointIs(env, c, created);
  }

  lemma SaveIs(env: Env, c: Checkpoint)
    ensures Save(env, c).Some? <==> c.pending != [] && Clean(env, Payload(env, c, Created(env, c)))
  {
    hide Payload, Clean;
  }

  lemma UsualTokens(env: Env)
    requires UsualPatterns(env)
    ensures FindsTokens(env)
  {
    hide FindsTokens;
  }

  lemma CheckpointIs(env: Env, c: Checkpoint, created: string)
    ensures CheckpointOk(env, c, created) <==>
            && TextOk(env, c.id) && TextOk(env, c.loopId) && TextOk(env, created)
            && (forall m | m in c.history :: MessageOk(env, m)) && ResponseOk(env, c.response)
            && (forall d | d in c.definitions :: DefinitionOk(env, d)) && NamesOk(env, c.allowedNames) && ConfigOk(env, c.config)
            && (forall s | s in c.steps :: StepOk(env, s)) && (forall r | r in c.results :: ResultOk(env, r))
            && (forall p | p in c.pending :: PendingOk(env, p)) && (forall o | o in c.preflight && o.Some? :: OutcomeOk(env, o.value))
            && OptTextOk(env, c.fallback) && NamesOk(env, c.counters.perTool.Keys)
            && TextOk(env, c.provider) && TextOk(env, c.model)
  {
    hide TextOk, MessageOk, ResponseOk, DefinitionOk, NamesOk, ConfigOk, StepOk, ResultOk, PendingOk, OutcomeOk, OptTextOk;
  }

  /** Hence a pause over an LLM response that reports usage, as providers do, can never be saved. */
  lemma UsageIsRefused(env: Env, c: Checkpoint)
    requires FindsTokens(env) && (c.response.usage.Some? || exists s | s in c.steps :: s.response.Some? && s.response.value.usage.Some?)
    ensures Save(env, c) == None
  {
    SaveIs(env, c);
    PayloadParts(env, c, Created(env, c));
    ResponseClean(env, c.response);
    StepsClean(env, c.steps);
    ReportsUsage(env, c.response);
    forall s: Step ensures StepOk(env, s) && s.response.Some? ==> s.response.value.usage.None? { StepReports(env, s); }
    hide *;
  }

  lemma ReportsUsage(env: Env, r: Response)
    ensures ResponseOk(env, r) ==> r.usage.None?
  {
  }

  lemma StepReports(env: Env, s: Step)
    ensures StepOk(env, s) && s.response.Some? ==> s.response.value.usage.None?
  {
  }
}
