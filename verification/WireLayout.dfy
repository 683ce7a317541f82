/** Where each part of a profile stands in the message, and as which number or name: one relation that what is
    encoded and what is decoded both satisfy. */
module WireLayout {
  import opened HostTypes
  import opened Wrappers
  import opened Text
  import opened Conversations
  import opened Utf8
  import opened Registry
  import opened AgentCodec

  // ---------------------------------------------------------------- numbers

  /** `GooseMode`: any other number is the smart mode, 1. */
  predicate ModeNumber(n: I32, mode: GooseMode) {
    && (mode == ApproveMode <==> n == 2) && (mode == AutoMode <==> n == 3) && (mode == ChatMode <==> n == 4)
  }

  /** `Placement`: any other number is local, 1. */
  predicate PlacementNumber(n: I32, placement: Placement) {
    placement == Cloud <==> n == 2
  }

  /** `WorkspaceKind`: any other number, and none, is the sandbox, 1. */
  predicate WorkspaceNumber(n: Option<I32>, kind: WorkspaceKind) {
    kind == Repo <==> n == Some(2)
  }

  /** `PermissionEffect`: any other number always allows, as 1 does. */
  predicate EffectNumber(n: I32, effect: PermissionDefault) {
    (effect == AskBefore <==> n == 2) && (effect == NeverAllow <==> n == 3)
  }

  /** Enabled unless the message says it is not. */
  predicate EnabledFlag(flag: Option<bool>, enabled: bool) {
    enabled <==> flag != Some(false)
  }

  // ---------------------------------------------------------------- parts

  predicate RuleStands(pb: PbRule, rule: PermissionRule) {
    && EffectNumber(pb.effect, rule.effect)
    && match pb.matches
       case Some(ToolName(name)) => rule.matches == Tool(name)
       case Some(FsPathPrefix(prefix)) => rule.matches == FsPath(prefix)
       case Some(BashArgvPrefix(prefix)) => rule.matches == BashArgv(prefix)
       case Some(McpToolMatch(extension, name)) => rule.matches == McpTool(extension, name)
       case None => rule.matches == Tool("")
  }

  /** The class is the app's if its name is, in whatever case. */
  predicate SkillStands(pb: PbSkill, skill: SkillRef) {
    && pb.id == skill.id && pb.origin == skill.origin && pb.version == skill.version
    && (skill.class_ == AppClass <==> SameButCase(pb.class_, "app"))
    && EnabledFlag(pb.enabled, skill.enabled)
  }

  /** No bytes are no parameters; what is there is the parameters' JSON. */
  predicate CapabilityStands(l: Libraries, pb: PbCapability, cap: CapabilityRef) {
    && pb.kind == cap.kind && pb.id == cap.id && EnabledFlag(pb.enabled, cap.enabled)
    && (pb.paramsJson == [] ==> cap.params == EMPTY_OBJECT || cap.params == Null)
    && (pb.paramsJson != [] ==> l.json.read(pb.paramsJson) == Some(cap.params))
  }

  /** The kind names the choice, and its value stands in the field of that kind. */
  predicate ReasoningBodyStands(l: Libraries, pb: PbReasoning, body: ReasoningBody) {
    var kind := Trim(pb.kind);
    match body
    case NoReasoning => kind in {"", "none"}
    case AlwaysOn => kind == "always_on"
    case Toggle(on) => kind == "toggle" && (on <==> pb.on == Some(true))
    case EffortEnum(value) => kind == "effort_enum" && (pb.value.Some? ==> pb.value.value == value) && (pb.value.None? ==> value == "")
    case BudgetTokens(tokens) =>
      && kind in {"budget", "budget_tokens"}
      && (pb.budget.Some? && pb.budget.value >= 0 ==> tokens == pb.budget.value)
      && (pb.budget.None? || pb.budget.value < 0 ==> tokens == 0 || tokens > I32_MAX)
    case Advanced(json) =>
      && kind == "advanced"
      && (pb.advancedJson != [] && l.json.read(pb.advancedJson).Some? ==> json == l.json.read(pb.advancedJson).value)
      && (pb.advancedJson == [] || l.json.read(pb.advancedJson).None? ==> json == EMPTY_OBJECT)
  }

  /** Version 0 stands for 1. */
  predicate ReasoningStands(l: Libraries, pb: PbReasoning, r: ReasoningChoice) {
    (pb.v == r.v || (pb.v == 0 && r.v == 1)) && ReasoningBodyStands(l, pb, r.body)
  }

  const KINDS := ["", "none", "always_on", "toggle", "effort_enum", "budget", "budget_tokens", "advanced"]

  /** There is a choice exactly where the message has one of a known kind. */
  predicate ReasoningFieldStands(l: Libraries, pb: Option<PbReasoning>, r: Option<ReasoningChoice>) {
    && (r.Some? <==> pb.Some? && Trim(pb.value.kind) in KINDS)
    && (r.Some? ==> ReasoningStands(l, pb.value, r.value))
  }

  predicate TextsStand(spec: AgentSpec, p: AgentProfile) {
    && spec.id == p.id && spec.displayName == p.displayName && spec.aliases == p.aliases
    && spec.systemPrompt == p.systemPrompt && spec.steer == p.steer && spec.portableDenylist == p.portableDenylist
    && EnabledFlag(spec.enabled, p.enabled)
    && (p.maxTurns.Some? ==> spec.maxTurns == p.maxTurns.value) && (p.maxTurns.None? ==> spec.maxTurns == 0)
  }

  predicate ListsStand(l: Libraries, spec: AgentSpec, p: AgentProfile) {
    && |spec.capabilities| == |p.capabilities| && |spec.permissionRules| == |p.permissionRules| && |spec.skills| == |p.skills|
    && (forall i :: 0 <= i < |p.capabilities| ==> CapabilityStands(l, spec.capabilities[i], p.capabilities[i]))
    && (forall i :: 0 <= i < |p.permissionRules| ==> RuleStands(spec.permissionRules[i], p.permissionRules[i]))
    && (forall i :: 0 <= i < |p.skills| ==> SkillStands(spec.skills[i], p.skills[i]))
  }

  /** What has no field of its own stands in the pocket. */
  predicate PocketStands(extra: ExtraPocket, p: AgentProfile) {
    && extra.provider == p.provider && extra.tools == p.tools && extra.extensions == p.extensions
    && extra.permissions == p.permissions && extra.runtime == p.runtime
    && extra.modelThinkingEffort == p.model.thinkingEffort && extra.modelTemperature == p.model.temperature
    && extra.modelMaxTokens == p.model.maxTokens && extra.modelContextTokens == p.model.contextTokens
    && extra.modelExtraParams == p.model.extraParams && extra.modelReasoning == p.model.reasoning
  }

  /** The profile stands in the message. */
  predicate Stands(l: Libraries, spec: AgentSpec, extra: ExtraPocket, p: AgentProfile) {
    && TextsStand(spec, p) && ListsStand(l, spec, p) && PocketStands(extra, p)
    && ModeNumber(spec.mode, p.mode) && WorkspaceNumber(spec.workspaceKind, p.workspace.kind)
    && p.model.name == (if spec.modelRef.Some? then spec.modelRef.value.model else "")
    && ReasoningFieldStands(l, if spec.modelRef.Some? then spec.modelRef.value.reasoning else None, p.reasoning)
  }

  // ---------------------------------------------------------------- both ways

  lemma CapabilityBothWays(l: Libraries, cap: CapabilityRef, pb: PbCapability)
    requires Faithful(l)
    ensures CapabilityStands(l, EncodeCapability(l, cap), cap)
    ensures DecodeCapability(l, pb).Some? ==> CapabilityStands(l, pb, DecodeCapability(l, pb).value)
  {
  }

  lemma RuleBothWays(rule: PermissionRule, pb: PbRule)
    ensures RuleStands(EncodeRule(rule), rule) && RuleStands(pb, DecodeRule(pb))
  {
  }

  lemma AppName(name: string)
    ensures ToLower(name) == "app" <==> SameButCase(name, "app")
  {
    LowerExactly(name, "app");
    assert ToLower("app") == "app";
  }

  lemma SkillBothWays(skill: SkillRef, pb: PbSkill)
    ensures SkillStands(EncodeSkill(skill), skill) && SkillStands(pb, DecodeSkill(pb))
  {
    AppName(pb.class_);
    assert |"portable"| != |"app"|;
    assert SameButCase("app", "app");
  }

  lemma ReasoningEncoded(l: Libraries, r: ReasoningChoice)
    requires Faithful(l)
    ensures ReasoningFieldStands(l, Some(EncodeReasoning(l, r)), Some(r))
  {
    KindIsTrimmed(l, r);
    KnownKinds(EncodeReasoning(l, r).kind);
  }

  lemma KnownKinds(kind: string)
    ensures kind in KINDS <==>
            kind in {"", "none"} || kind == "always_on" || kind == "toggle" || kind == "effort_enum"
            || kind in {"budget", "budget_tokens"} || kind == "advanced"
  {
    if kind in KINDS {
      var i :| 0 <= i < |KINDS| && KINDS[i] == kind;
    }
    assert KINDS[0] == "" && KINDS[1] == "none" && KINDS[2] == "always_on" && KINDS[3] == "toggle" && KINDS[4] == "effort_enum"
        && KINDS[5] == "budget" && KINDS[6] == "budget_tokens" && KINDS[7] == "advanced";
  }

  lemma ReasoningDecoded(l: Libraries, pb: PbReasoning)
    ensures ReasoningFieldStands(l, Some(pb), DecodeReasoning(l, pb))
  {
    KnownKinds(Trim(pb.kind));
  }

  lemma ListsEncoded(l: Libraries, p: AgentProfile, spec: AgentSpec)
    requires Faithful(l)
    requires spec.capabilities == Mapped(CapabilityEncoder(l), p.capabilities)
    requires spec.permissionRules == Mapped(EncodeRule, p.permissionRules) && spec.skills == Mapped(EncodeSkill, p.skills)
    ensures ListsStand(l, spec, p)
  {
    forall i | 0 <= i < |p.capabilities|
      ensures CapabilityStands(l, spec.capabilities[i], p.capabilities[i])
    {
      CapabilityBothWays(l, p.capabilities[i], spec.capabilities[i]);
    }
    forall i | 0 <= i < |p.permissionRules|
      ensures RuleStands(spec.permissionRules[i], p.permissionRules[i])
    {
      RuleBothWays(p.permissionRules[i], spec.permissionRules[i]);
    }
    forall i | 0 <= i < |p.skills|
      ensures SkillStands(spec.skills[i], p.skills[i])
    {
      SkillBothWays(p.skills[i], spec.skills[i]);
    }
  }

  lemma ListsDecoded(l: Libraries, p: AgentProfile, spec: AgentSpec)
    requires Faithful(l)
    requires Collected(CapabilityDecoder(l), spec.capabilities) == Some(p.capabilities)
    requires p.permissionRules == Mapped(DecodeRule, spec.permissionRules) && p.skills == Mapped(DecodeSkill, spec.skills)
    ensures ListsStand(l, spec, p)
  {
    forall i | 0 <= i < |p.capabilities|
      ensures CapabilityStands(l, spec.capabilities[i], p.capabilities[i])
    {
      assert CapabilityDecoder(l)(spec.capabilities[i]) == Some(p.capabilities[i]);
      CapabilityBothWays(l, p.capabilities[i], spec.capabilities[i]);
    }
    forall i | 0 <= i < |p.permissionRules|
      ensures RuleStands(spec.permissionRules[i], p.permissionRules[i])
    {
      RuleBothWays(p.permissionRules[i], spec.permissionRules[i]);
    }
    forall i | 0 <= i < |p.skills|
      ensures SkillStands(spec.skills[i], p.skills[i])
    {
      SkillBothWays(p.skills[i], spec.skills[i]);
    }
  }

  lemma EncodedNumbers(l: Libraries, p: AgentProfile, updatedAt: int, placement: Placement, accountId: string, serverAccount: string)
    ensures var spec := SpecOf(l, p, updatedAt, placement, accountId, serverAccount);
            && ModeNumber(spec.mode, p.mode) && 1 <= spec.mode <= 4
            && WorkspaceNumber(spec.workspaceKind, p.workspace.kind) && spec.workspaceKind.Some? && 1 <= spec.workspaceKind.value <= 2
            && PlacementNumber(spec.placement, placement) && 1 <= spec.placement <= 2
            && (forall i :: 0 <= i < |spec.permissionRules| ==> 1 <= spec.permissionRules[i].effect <= 3)
            && spec.schemaVersion == 1
  {
  }

  /** What is encoded stands in the message as it should, under the numbers and names the schema gives. */
  lemma EncodedStands(l: Libraries, p: AgentProfile, updatedAt: int, placement: Placement, accountId: string, serverAccount: string)
    requires Faithful(l)
    ensures var spec := SpecOf(l, p, updatedAt, placement, accountId, serverAccount);
            && Stands(l, spec, PocketOf(p, accountId), p)
            && l.pocket.read(spec.extraJson) == Some(PocketOf(p, accountId))
            && PlacementNumber(spec.placement, placement) && 1 <= spec.placement <= 2
            && 1 <= spec.mode <= 4 && spec.workspaceKind.Some? && 1 <= spec.workspaceKind.value <= 2
            && (forall i :: 0 <= i < |spec.permissionRules| ==> 1 <= spec.permissionRules[i].effect <= 3)
            && spec.schemaVersion == 1 && spec.updatedAt == updatedAt && spec.serverAccount == serverAccount
            && spec.modelRef.Some? && spec.modelRef.value.accountId == accountId
  {
    EncodedNumbers(l, p, updatedAt, placement, accountId, serverAccount);
    ListsEncoded(l, p, SpecOf(l, p, updatedAt, placement, accountId, serverAccount));
    if p.reasoning.Some? {
      ReasoningEncoded(l, p.reasoning.value);
    }
  }

  /** What is decoded, whoever wrote it, stands in its message in the same way. */
  lemma DecodedStands(l: Libraries, bytes: Bytes)
    requires Faithful(l) && DecodeSpec(l, bytes).Ok?
    ensures var spec, d := l.spec.read(bytes).value, DecodeSpec(l, bytes).value;
            var extra := if spec.extraJson == [] then EMPTY_POCKET else l.pocket.read(spec.extraJson).value;
            && Stands(l, spec, extra, d.profile)
            && PlacementNumber(spec.placement, d.placement)
            && d.updatedAt == spec.updatedAt && d.serverAccount == spec.serverAccount
            && d.accountId == (if spec.modelRef.Some? && spec.modelRef.value.accountId != "" then spec.modelRef.value.accountId else extra.accountId)
  {
    var spec, d := l.spec.read(bytes).value, DecodeSpec(l, bytes).value;
    ListsDecoded(l, d.profile, spec);
    if spec.modelRef.Some? && spec.modelRef.value.reasoning.Some? {
      ReasoningDecoded(l, spec.modelRef.value.reasoning.value);
    }
  }
}
