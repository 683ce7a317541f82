/** The codec between an agent's profile and the `kim.agent.AgentSpec` message: inverse up to a normal form. */
module AgentCodec {
  import opened HostTypes
  import opened Wrappers
  import opened Text
  import opened Conversations
  import opened Utf8
  import opened Registry

  const CURRENT_SCHEMA_VERSION := 1
  const I32_MAX := 0x7FFF_FFFF

  type U32 = n: nat | n < 0x1_0000_0000
  type I32 = n: int | -0x8000_0000 <= n < 0x8000_0000

  // ---------------------------------------------------------------- the profile

  datatype GooseMode = AutoMode | ApproveMode | SmartApproveMode | ChatMode

  datatype WorkspaceKind = Sandbox | Repo

  datatype WorkspaceSpec = WorkspaceSpec(kind: WorkspaceKind, path: string)

  datatype ProviderSpec = ProviderSpec(kind: string, baseUrl: string, keyRef: string)

  datatype ModelSpec = ModelSpec(
    name: string,
    thinkingEffort: Option<string>,
    temperature: Option<string>,
    maxTokens: Option<I32>,
    contextTokens: Option<I32>,
    extraParams: map<string, Json>,
    reasoning: Option<bool>)

  datatype ToolSet = ToolSet(
    sendMessage: bool, searchContacts: bool, searchMessages: bool, getConversationContext: bool, readClipboard: bool,
    listProfiles: bool, fs: bool, fsWrite: bool, bash: bool, subagent: bool)

  datatype CapabilityRef = CapabilityRef(kind: string, id: string, params: Json, enabled: bool)

  datatype PermissionMatch =
    | Tool(name: string)
    | FsPath(prefix: string)
    | BashArgv(prefix: string)
    | McpTool(extension: string, name: string)

  datatype PermissionRule = PermissionRule(matches: PermissionMatch, effect: PermissionDefault)

  datatype ExtensionSpec = ExtensionSpec(
    name: string, transport: string, command: seq<string>, url: string, env: map<string, string>)

  datatype ReasoningBody =
    | NoReasoning
    | AlwaysOn
    | Toggle(on: bool)
    | EffortEnum(value: string)
    | BudgetTokens(tokens: U32)
    | Advanced(json: Json)

  datatype ReasoningChoice = ReasoningChoice(v: U32, body: ReasoningBody)

  datatype HarnessSpec = HarnessSpec(
    idleSecs: Option<nat>, hardSecs: Option<nat>, bashSecs: Option<nat>, mcpToolSecs: Option<nat>,
    yieldWaitSecs: Option<nat>, requireReply: Option<bool>, enabled: bool)

  datatype AgentProfile = AgentProfile(
    id: string,
    displayName: string,
    aliases: seq<string>,
    provider: ProviderSpec,
    model: ModelSpec,
    reasoning: Option<ReasoningChoice>,
    systemPrompt: string,
    mode: GooseMode,
    maxTurns: Option<U32>,
    tools: ToolSet,
    capabilities: seq<CapabilityRef>,
    permissionRules: seq<PermissionRule>,
    permissions: map<string, PermissionDefault>,
    extensions: seq<ExtensionSpec>,
    enabled: bool,
    steer: string,
    workspace: WorkspaceSpec,
    skills: seq<SkillRef>,
    portableDenylist: seq<string>,
    userAgentsSkills: string,
    runtime: string,
    harness: Option<HarnessSpec>)

  datatype Placement = Local | Cloud

  datatype DecodedSpec = DecodedSpec(
    profile: AgentProfile, placement: Placement, updatedAt: int, schemaVersion: U32, accountId: string, serverAccount: string)

  datatype CodecError = UnsupportedSchema(version: U32) | DecodeFailed | JsonFailed

  // ---------------------------------------------------------------- the message

  datatype PbReasoning = PbReasoning(
    v: U32, kind: string, on: Option<bool>, value: Option<string>, budget: Option<I32>, advancedJson: Bytes)

  datatype PbModelRef = PbModelRef(accountId: string, model: string, reasoning: Option<PbReasoning>)

  datatype PbCapability = PbCapability(kind: string, id: string, paramsJson: Bytes, enabled: Option<bool>)

  datatype PbMatch =
    | ToolName(name: string)
    | FsPathPrefix(prefix: string)
    | BashArgvPrefix(prefix: string)
    | McpToolMatch(extension: string, name: string)

  datatype PbRule = PbRule(matches: Option<PbMatch>, effect: I32)

  datatype PbSkill = PbSkill(id: string, class_: string, origin: string, version: string, enabled: Option<bool>)

  datatype AgentSpec = AgentSpec(
    schemaVersion: U32,
    id: string,
    displayName: string,
    aliases: seq<string>,
    enabled: Option<bool>,
    placement: I32,
    updatedAt: int,
    systemPrompt: string,
    serverAccount: string,
    modelRef: Option<PbModelRef>,
    capabilities: seq<PbCapability>,
    permissionRules: seq<PbRule>,
    workspaceKind: Option<I32>,
    skills: seq<PbSkill>,
    portableDenylist: seq<string>,
    steer: string,
    maxTurns: U32,
    mode: I32,
    extraJson: Bytes)

  /** What has no field of its own in the message. */
  datatype ExtraPocket = ExtraPocket(
    accountId: string,
    provider: ProviderSpec,
    modelThinkingEffort: Option<string>,
    modelTemperature: Option<string>,
    modelMaxTokens: Option<I32>,
    modelContextTokens: Option<I32>,
    modelExtraParams: map<string, Json>,
    modelReasoning: Option<bool>,
    tools: ToolSet,
    extensions: seq<ExtensionSpec>,
    permissions: map<string, PermissionDefault>,
    runtime: string)

  /** A profile as JSON, with the account fields that may stand beside its own. */
  datatype JsonProfile = JsonProfile(profile: AgentProfile, accountId: Option<string>, serverAccount: Option<string>)

  const NO_TOOLS := ToolSet(false, false, false, false, false, false, false, false, false, false)

  const EMPTY_POCKET := ExtraPocket("", ProviderSpec("", "", ""), None, None, None, None, map[], None, NO_TOOLS, [], map[], "")

  const EMPTY_MODEL_REF := PbModelRef("", "", None)

  const EMPTY_OBJECT := Object(map[])

  /** One library's encoding of one type. */
  datatype Format<!T, !B> = Format(write: T -> B, read: B -> Option<T>)

  ghost predicate Inverse<T(!new), B>(f: Format<T, B>) {
    forall t: T :: f.read(f.write(t)) == Some(t)
  }

  /** The protobuf and JSON libraries. */
  datatype Libraries = Libraries(
    spec: Format<AgentSpec, Bytes>,
    json: Format<Json, Bytes>,
    pocket: Format<ExtraPocket, Bytes>,
    profile: Format<JsonProfile, string>)

  /** What is written reads back, and no JSON text is empty. */
  ghost predicate Faithful(l: Libraries) {
    && Inverse(l.spec) && Inverse(l.json) && Inverse(l.pocket) && Inverse(l.profile)
    && (forall v :: l.json.write(v) != []) && (forall e :: l.pocket.write(e) != [])
  }

  // ---------------------------------------------------------------- parts

  function EncodeEnabled(enabled: bool): Option<bool> {
    if enabled then None else Some(false)
  }

  function EncodeCapability(l: Libraries, cap: CapabilityRef): PbCapability {
    PbCapability(cap.kind, cap.id, if cap.params.Null? || cap.params == EMPTY_OBJECT then [] else l.json.write(cap.params),
                 EncodeEnabled(cap.enabled))
  }

  function DecodeCapability(l: Libraries, cap: PbCapability): Option<CapabilityRef> {
    var params := if cap.paramsJson == [] then Some(EMPTY_OBJECT) else l.json.read(cap.paramsJson);
    if params.None? then None else Some(CapabilityRef(cap.kind, cap.id, params.value, cap.enabled.UnwrapOr(true)))
  }

  function EncodeSkill(skill: SkillRef): PbSkill {
    PbSkill(skill.id, if skill.class_ == AppClass then "app" else "portable", skill.origin, skill.version, EncodeEnabled(skill.enabled))
  }

  function DecodeSkill(skill: PbSkill): SkillRef {
    SkillRef(skill.id, if ToLower(skill.class_) == "app" then AppClass else PortableClass, skill.origin, skill.version,
             skill.enabled.UnwrapOr(true))
  }

  function EncodeEffect(effect: PermissionDefault): I32 {
    match effect
    case AlwaysAllow => 1
    case AskBefore => 2
    case NeverAllow => 3
  }

  function DecodeEffect(raw: I32): PermissionDefault {
    if raw == 3 then NeverAllow else if raw == 2 then AskBefore else AlwaysAllow
  }

  function EncodeRule(rule: PermissionRule): PbRule {
    var matches := match rule.matches
      case Tool(name) => ToolName(name)
      case FsPath(prefix) => FsPathPrefix(prefix)
      case BashArgv(prefix) => BashArgvPrefix(prefix)
      case McpTool(extension, name) => McpToolMatch(extension, name);
    PbRule(Some(matches), EncodeEffect(rule.effect))
  }

  function DecodeRule(rule: PbRule): PermissionRule {
    var matches := match rule.matches
      case Some(ToolName(name)) => Tool(name)
      case Some(FsPathPrefix(prefix)) => FsPath(prefix)
      case Some(BashArgvPrefix(prefix)) => BashArgv(prefix)
      case Some(McpToolMatch(extension, name)) => McpTool(extension, name)
      case None => Tool("");
    PermissionRule(matches, DecodeEffect(rule.effect))
  }

  function EncodeMode(mode: GooseMode): I32 {
    match mode
    case ChatMode => 4
    case AutoMode => 3
    case ApproveMode => 2
    case SmartApproveMode => 1
  }

  function DecodeMode(raw: I32): GooseMode {
    if raw == 4 then ChatMode else if raw == 3 then AutoMode else if raw == 2 then ApproveMode else SmartApproveMode
  }

  function KindName(body: ReasoningBody): string {
    match body
    case NoReasoning => "none"
    case AlwaysOn => "always_on"
    case Toggle(_) => "toggle"
    case EffortEnum(_) => "effort_enum"
    case BudgetTokens(_) => "budget_tokens"
    case Advanced(_) => "advanced"
  }

  function EncodeReasoning(l: Libraries, r: ReasoningChoice): PbReasoning {
    var out := PbReasoning(r.v, KindName(r.body), None, None, None, []);
    match r.body
    case NoReasoning => out
    case AlwaysOn => out
    case Toggle(on) => out.(on := Some(on))
    case EffortEnum(value) => out.(value := Some(value))
    case BudgetTokens(tokens) => out.(budget := if tokens <= I32_MAX then Some(tokens) else None, kind := "budget")
    case Advanced(json) => out.(advancedJson := l.json.write(json))
  }

  function DecodeReasoningBody(l: Libraries, kind: string, r: PbReasoning): Option<ReasoningBody> {
    if kind == "" || kind == "none" then Some(NoReasoning)
    else if kind == "always_on" then Some(AlwaysOn)
    else if kind == "toggle" then Some(Toggle(r.on.UnwrapOr(false)))
    else if kind == "effort_enum" then Some(EffortEnum(r.value.UnwrapOr("")))
    else if kind == "budget" || kind == "budget_tokens" then
      var budget := r.budget.UnwrapOr(0);
      Some(BudgetTokens(if budget < 0 then 0 else budget))
    else if kind == "advanced" then
      Some(Advanced(if r.advancedJson == [] then EMPTY_OBJECT else l.json.read(r.advancedJson).UnwrapOr(EMPTY_OBJECT)))
    else None
  }

  function DecodeReasoning(l: Libraries, r: PbReasoning): Option<ReasoningChoice> {
    var body := DecodeReasoningBody(l, Trim(r.kind), r);
    if body.None? then None else Some(ReasoningChoice(if r.v == 0 then 1 else r.v, body.value))
  }

  // ---------------------------------------------------------------- lists

  function Mapped<A, B>(f: A -> B, s: seq<A>): (r: seq<B>)
    ensures |r| == |s| && forall i :: 0 <= i < |s| ==> r[i] == f(s[i])
  {
    seq(|s|, i requires 0 <= i < |s| => f(s[i]))
  }

  /** `collect` into a result: nothing, if one is missing. */
  function Collected<A, B>(f: A -> Option<B>, s: seq<A>): (r: Option<seq<B>>)
    ensures r.Some? <==> forall i :: 0 <= i < |s| ==> f(s[i]).Some?
    ensures r.Some? ==> |r.value| == |s| && forall i :: 0 <= i < |s| ==> f(s[i]) == Some(r.value[i])
  {
    if s == [] then Some([])
    else
      var first := f(s[0]);
      if first.None? then None
      else
        var rest := Collected(f, s[1..]);
        if rest.None? then None else Some([first.value] + rest.value)
  }

  function CapabilityEncoder(l: Libraries): CapabilityRef -> PbCapability {
    cap => EncodeCapability(l, cap)
  }

  function CapabilityDecoder(l: Libraries): PbCapability -> Option<CapabilityRef> {
    cap => DecodeCapability(l, cap)
  }

  // ---------------------------------------------------------------- the codec

  function PocketOf(p: AgentProfile, accountId: string): ExtraPocket {
    ExtraPocket(accountId, p.provider, p.model.thinkingEffort, p.model.temperature, p.model.maxTokens, p.model.contextTokens,
                p.model.extraParams, p.model.reasoning, p.tools, p.extensions, p.permissions, p.runtime)
  }

  function SpecOf(l: Libraries, p: AgentProfile, updatedAt: int, placement: Placement, accountId: string, serverAccount: string)
    : AgentSpec
  {
    AgentSpec(
      CURRENT_SCHEMA_VERSION, p.id, p.displayName, p.aliases, EncodeEnabled(p.enabled),
      if placement.Cloud? then 2 else 1, updatedAt, p.systemPrompt, serverAccount,
      Some(PbModelRef(accountId, p.model.name, if p.reasoning.None? then None else Some(EncodeReasoning(l, p.reasoning.value)))),
      Mapped(CapabilityEncoder(l), p.capabilities),
      Mapped(EncodeRule, p.permissionRules),
      Some(if p.workspace.kind.Repo? then 2 else 1),
      Mapped(EncodeSkill, p.skills),
      p.portableDenylist, p.steer, p.maxTurns.UnwrapOr(0), EncodeMode(p.mode), l.pocket.write(PocketOf(p, accountId)))
  }

  /** `encode_spec_parts` */
  function EncodeSpec(l: Libraries, p: AgentProfile, updatedAt: int, placement: Placement, accountId: string, serverAccount: string)
    : Bytes
  {
    l.spec.write(SpecOf(l, p, updatedAt, placement, accountId, serverAccount))
  }

  /** `profile_from_proto`, with the parts that stand for themselves decoded. */
  function ProfileOf(spec: AgentSpec, extra: ExtraPocket, model: string, reasoning: Option<ReasoningChoice>, mode: GooseMode,
                     kind: WorkspaceKind, capabilities: seq<CapabilityRef>, rules: seq<PermissionRule>, skills: seq<SkillRef>)
    : AgentProfile
  {
    AgentProfile(
      spec.id, spec.displayName, spec.aliases, extra.provider,
      ModelSpec(model, extra.modelThinkingEffort, extra.modelTemperature, extra.modelMaxTokens,
                extra.modelContextTokens, extra.modelExtraParams, extra.modelReasoning),
      reasoning, spec.systemPrompt, mode, if spec.maxTurns == 0 then None else Some(spec.maxTurns),
      extra.tools, capabilities, rules, extra.permissions, extra.extensions,
      spec.enabled.UnwrapOr(true), spec.steer, WorkspaceSpec(kind, ""), skills, spec.portableDenylist, "", extra.runtime, None)
  }

  function DecodeReasoningField(l: Libraries, r: Option<PbReasoning>): Option<ReasoningChoice> {
    if r.None? then None else DecodeReasoning(l, r.value)
  }

  function DecodeWorkspaceKind(raw: I32): WorkspaceKind {
    if raw == 2 then Repo else Sandbox
  }

  function ProfileFrom(l: Libraries, spec: AgentSpec, extra: ExtraPocket, capabilities: seq<CapabilityRef>): AgentProfile {
    var modelRef := spec.modelRef.UnwrapOr(EMPTY_MODEL_REF);
    ProfileOf(spec, extra, modelRef.model, DecodeReasoningField(l, modelRef.reasoning), DecodeMode(spec.mode),
              DecodeWorkspaceKind(spec.workspaceKind.UnwrapOr(0)), capabilities,
              Mapped(DecodeRule, spec.permissionRules), Mapped(DecodeSkill, spec.skills))
  }

  function DecodeParts(l: Libraries, spec: AgentSpec, version: U32): Result<DecodedSpec, CodecError> {
    var extra := if spec.extraJson == [] then Some(EMPTY_POCKET) else l.pocket.read(spec.extraJson);
    var capabilities := Collected(CapabilityDecoder(l), spec.capabilities);
    if extra.None? || capabilities.None? then Err(JsonFailed)
    else
      var modelRef := spec.modelRef.UnwrapOr(EMPTY_MODEL_REF);
      Ok(DecodedSpec(
           ProfileFrom(l, spec, extra.value, capabilities.value), if spec.placement == 2 then Cloud else Local, spec.updatedAt,
           version, if modelRef.accountId == "" then extra.value.accountId else modelRef.accountId, spec.serverAccount))
  }

  /** `decode_spec` */
  function DecodeSpec(l: Libraries, bytes: Bytes): Result<DecodedSpec, CodecError> {
    var spec := l.spec.read(bytes);
    if spec.None? then Err(DecodeFailed)
    else
      var version := if spec.value.schemaVersion == 0 then CURRENT_SCHEMA_VERSION else spec.value.schemaVersion;
      if version > CURRENT_SCHEMA_VERSION then Err(UnsupportedSchema(version)) else DecodeParts(l, spec.value, version)
  }

  /** `spec_to_json` */
  function SpecToJson(l: Libraries, d: DecodedSpec): string {
    l.profile.write(JsonProfile(d.profile, if d.accountId == "" then None else Some(d.accountId),
                                if d.serverAccount == "" then None else Some(d.serverAccount)))
  }

  /** `encode_spec_from_json` */
  function EncodeSpecFromJson(l: Libraries, json: string, updatedAt: int, placement: Placement): Result<Bytes, CodecError> {
    var read := l.profile.read(json);
    if read.None? then Err(JsonFailed)
    else Ok(EncodeSpec(l, read.value.profile, updatedAt, placement, read.value.accountId.UnwrapOr(""), read.value.serverAccount.UnwrapOr("")))
  }

  // ---------------------------------------------------------------- the normal form

  function NormalCapability(cap: CapabilityRef): CapabilityRef {
    if cap.params.Null? then cap.(params := EMPTY_OBJECT) else cap
  }

  function NormalReasoning(r: ReasoningChoice): ReasoningChoice {
    ReasoningChoice(if r.v == 0 then 1 else r.v,
                    if r.body.BudgetTokens? && r.body.tokens > I32_MAX then BudgetTokens(0) else r.body)
  }

  /** What survives encoding. */
  function Normal(p: AgentProfile): AgentProfile {
    p.(workspace := p.workspace.(path := ""),
       userAgentsSkills := "",
       harness := None,
       maxTurns := if p.maxTurns == Some(0) then None else p.maxTurns,
       reasoning := NormalReasoningField(p.reasoning),
       capabilities := Mapped(NormalCapability, p.capabilities))
  }

  /** No capability has an explicit null for its parameters. */
  predicate NoNullParams(p: AgentProfile) {
    forall i :: 0 <= i < |p.capabilities| ==> !p.capabilities[i].params.Null?
  }

  // ---------------------------------------------------------------- round trips

  lemma CapabilityRoundTrip(l: Libraries, cap: CapabilityRef)
    requires Faithful(l)
    ensures DecodeCapability(l, EncodeCapability(l, cap)) == Some(NormalCapability(cap))
  {
  }

  lemma TrimWord(s: string)
    requires s != "" && !IsWhitespace(s[0]) && !IsWhitespace(s[|s| - 1])
    ensures Trim(s) == s
  {
    LeadUnique(s, 0);
    StopUnique(s, |s|);
  }

  /** What the decoder looks at is the kind as it was written. */
  lemma KindIsTrimmed(l: Libraries, r: ReasoningChoice)
    ensures Trim(EncodeReasoning(l, r).kind) == EncodeReasoning(l, r).kind
  {
    TrimWord(EncodeReasoning(l, r).kind);
  }

  lemma ReasoningBodyRoundTrip(l: Libraries, r: ReasoningChoice)
    requires Faithful(l)
    ensures DecodeReasoningBody(l, EncodeReasoning(l, r).kind, EncodeReasoning(l, r)) == Some(NormalReasoning(r).body)
    ensures EncodeReasoning(l, r).v == r.v
  {
    match r.body
    case NoReasoning =>
    case AlwaysOn =>
    case Toggle(_) =>
    case EffortEnum(_) =>
    case BudgetTokens(_) =>
    case Advanced(_) =>
  }

  lemma ReasoningRoundTrip(l: Libraries, r: ReasoningChoice)
    requires Faithful(l)
    ensures DecodeReasoning(l, EncodeReasoning(l, r)) == Some(NormalReasoning(r))
  {
    KindIsTrimmed(l, r);
    ReasoningBodyRoundTrip(l, r);
  }

  lemma SkillRoundTrip(skill: SkillRef)
    ensures DecodeSkill(EncodeSkill(skill)) == skill
  {
    if skill.class_ == AppClass {
      assert ToLower("app") == "app";
    } else {
      assert |ToLower("portable")| == 8;
    }
  }

  lemma RuleRoundTrip(rule: PermissionRule)
    ensures DecodeRule(EncodeRule(rule)) == rule
  {
  }

  lemma CapabilitiesRoundTrip(l: Libraries, caps: seq<CapabilityRef>)
    requires Faithful(l)
    ensures Collected(CapabilityDecoder(l), Mapped(CapabilityEncoder(l), caps)) == Some(Mapped(NormalCapability, caps))
  {
    var encoded := Mapped(CapabilityEncoder(l), caps);
    forall i | 0 <= i < |caps|
      ensures CapabilityDecoder(l)(encoded[i]) == Some(NormalCapability(caps[i]))
    {
      CapabilityRoundTrip(l, caps[i]);
    }
    assert Collected(CapabilityDecoder(l), encoded).value == Mapped(NormalCapability, caps);
  }

  lemma ListsRoundTrip(rules: seq<PermissionRule>, skills: seq<SkillRef>)
    ensures Mapped(DecodeRule, Mapped(EncodeRule, rules)) == rules
    ensures Mapped(DecodeSkill, Mapped(EncodeSkill, skills)) == skills
  {
    forall i | 0 <= i < |rules|
      ensures DecodeRule(EncodeRule(rules[i])) == rules[i]
    {
      RuleRoundTrip(rules[i]);
    }
    forall i | 0 <= i < |skills|
      ensures DecodeSkill(EncodeSkill(skills[i])) == skills[i]
    {
      SkillRoundTrip(skills[i]);
    }
  }

  /** Decoding what was encoded gives the normal form, with everything beside the profile kept. */
  lemma DecodeEncode(l: Libraries, p: AgentProfile, updatedAt: int, placement: Placement, accountId: string, serverAccount: string)
    requires Faithful(l)
    ensures DecodeSpec(l, EncodeSpec(l, p, updatedAt, placement, accountId, serverAccount)) ==
            Ok(DecodedSpec(Normal(p), placement, updatedAt, CURRENT_SCHEMA_VERSION, accountId, serverAccount))
  {
    CapabilitiesRoundTrip(l, p.capabilities);
    ProfileRoundTrip(l, p, updatedAt, placement, accountId, serverAccount);
  }

  lemma ModeRoundTrip(mode: GooseMode)
    ensures DecodeMode(EncodeMode(mode)) == mode
  {
  }

  function NormalReasoningField(r: Option<ReasoningChoice>): Option<ReasoningChoice> {
    if r.None? then None else Some(NormalReasoning(r.value))
  }

  lemma ReasoningFieldRoundTrip(l: Libraries, r: Option<ReasoningChoice>)
    requires Faithful(l)
    ensures DecodeReasoningField(l, if r.None? then None else Some(EncodeReasoning(l, r.value))) == NormalReasoningField(r)
  {
    if r.Some? {
      ReasoningRoundTrip(l, r.value);
    }
  }

  /** The fields that are copied, put together with the decoded ones. */
  lemma PutTogether(l: Libraries, p: AgentProfile, updatedAt: int, placement: Placement, accountId: string, serverAccount: string)
    ensures ProfileOf(SpecOf(l, p, updatedAt, placement, accountId, serverAccount), PocketOf(p, accountId), p.model.name,
                      NormalReasoningField(p.reasoning), p.mode, p.workspace.kind, Mapped(NormalCapability, p.capabilities),
                      p.permissionRules, p.skills) == Normal(p)
  {
  }

  lemma ProfileRoundTrip(l: Libraries, p: AgentProfile, updatedAt: int, placement: Placement, accountId: string, serverAccount: string)
    requires Faithful(l)
    ensures ProfileFrom(l, SpecOf(l, p, updatedAt, placement, accountId, serverAccount), PocketOf(p, accountId),
                        Mapped(NormalCapability, p.capabilities)) == Normal(p)
  {
    ListsRoundTrip(p.permissionRules, p.skills);
    ModeRoundTrip(p.mode);
    ReasoningFieldRoundTrip(l, p.reasoning);
    PutTogether(l, p, updatedAt, placement, accountId, serverAccount);
  }

  /** The normal form is one: encoding what was decoded loses nothing more. */
  lemma NormalIdempotent(p: AgentProfile)
    ensures Normal(Normal(p)) == Normal(p) && NoNullParams(Normal(p))
  {
    assert Normal(Normal(p)).capabilities == Normal(p).capabilities;
  }

  /** A message is refused for its version exactly if that is above the current one; version 0 reads as the current. */
  lemma VersionRefusedExactly(l: Libraries, spec: AgentSpec)
    requires Faithful(l)
    ensures var r := DecodeSpec(l, l.spec.write(spec));
            && (spec.schemaVersion > CURRENT_SCHEMA_VERSION <==> r == Err(UnsupportedSchema(spec.schemaVersion)))
            && (r.Ok? ==> r.value.schemaVersion == CURRENT_SCHEMA_VERSION)
  {
  }

  lemma NormalCapabilitiesExactly(p: AgentProfile)
    ensures Mapped(NormalCapability, p.capabilities) == p.capabilities <==> NoNullParams(p)
  {
    if !NoNullParams(p) {
      var i :| 0 <= i < |p.capabilities| && p.capabilities[i].params.Null?;
      assert Mapped(NormalCapability, p.capabilities)[i] != p.capabilities[i];
    }
  }

  lemma DecodedReasoningIsNormal(l: Libraries, r: PbReasoning)
    requires DecodeReasoning(l, r).Some?
    ensures NormalReasoning(DecodeReasoning(l, r).value) == DecodeReasoning(l, r).value
  {
  }

  lemma DecodedPartsNormal(l: Libraries, spec: AgentSpec, extra: ExtraPocket, capabilities: seq<CapabilityRef>)
    ensures var p := ProfileFrom(l, spec, extra, capabilities);
            Normal(p) == p.(capabilities := Mapped(NormalCapability, capabilities))
  {
    var modelRef := spec.modelRef.UnwrapOr(EMPTY_MODEL_REF);
    if modelRef.reasoning.Some? && DecodeReasoning(l, modelRef.reasoning.value).Some? {
      DecodedReasoningIsNormal(l, modelRef.reasoning.value);
    }
  }

  /** A decoded profile is normal exactly if it has no null parameters, whoever wrote the bytes. */
  lemma DecodedIsNormalExactly(l: Libraries, bytes: Bytes)
    requires DecodeSpec(l, bytes).Ok?
    ensures var p := DecodeSpec(l, bytes).value.profile;
            Normal(p) == p <==> NoNullParams(p)
  {
    var spec := l.spec.read(bytes).value;
    var extra := if spec.extraJson == [] then EMPTY_POCKET else l.pocket.read(spec.extraJson).value;
    var capabilities := Collected(CapabilityDecoder(l), spec.capabilities).value;
    DecodedPartsNormal(l, spec, extra, capabilities);
    NormalCapabilitiesExactly(DecodeSpec(l, bytes).value.profile);
  }

  /**
   * From the message to JSON and back: both accounts are kept, and the profile is kept exactly if it has no
   * null parameters.
   */
  lemma JsonRouteKeepsExactly(l: Libraries, bytes: Bytes, updatedAt: int, placement: Placement)
    requires Faithful(l) && DecodeSpec(l, bytes).Ok?
    ensures var d := DecodeSpec(l, bytes).value;
            var again := EncodeSpecFromJson(l, SpecToJson(l, d), updatedAt, placement);
            && again.Ok? && DecodeSpec(l, again.value).Ok?
            && var e := DecodeSpec(l, again.value).value;
            && e.accountId == d.accountId && e.serverAccount == d.serverAccount
            && e.placement == placement && e.updatedAt == updatedAt
            && (e.profile == d.profile <==> NoNullParams(d.profile))
  {
    var d := DecodeSpec(l, bytes).value;
    DecodeEncode(l, d.profile, updatedAt, placement, d.accountId, d.serverAccount);
    DecodedIsNormalExactly(l, bytes);
  }
}
