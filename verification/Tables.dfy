/** The tenant-scoped tables, their policy kinds, and the parent-child edges that must not cross tenants. */
module Tables {
  import opened Common
  import opened Policy

  /** The widened tables by name; `Other` is any table that carries no tenant. */
  datatype Table =
    | GovernanceCustomers | GovernanceTeams | GovernanceVirtualKeys | GovernanceVirtualKeyProviderConfigs
    | GovernanceVirtualKeyProviderConfigKeys | GovernanceVirtualKeyMcpConfigs | GovernanceBudgets | GovernanceRateLimits
    | Prompts | PromptVersions | PromptSessions | PromptSessionMessages | Folders
    | Skills | SkillVersions | SkillFiles | SkillFileBlobs
    | BatchJobs | TempTokens | McpOauthFlows | McpOauthTokens | McpPerUserHeaderFlows | McpPerUserHeaderCredentials
    | OauthUserSessions | OauthUserTokens | EnterpriseMcpToolGroups | EnterpriseMcpToolGroupVirtualKeys
    | ConfigKeys
    | Sessions
    | Other(name: string)

  const GOVERNANCE_TABLES: seq<Table> :=
    [GovernanceCustomers, GovernanceTeams, GovernanceVirtualKeys, GovernanceVirtualKeyProviderConfigs,
     GovernanceVirtualKeyProviderConfigKeys, GovernanceVirtualKeyMcpConfigs, GovernanceBudgets, GovernanceRateLimits]

  const CONTENT_TABLES: seq<Table> :=
    [Prompts, PromptVersions, PromptSessions, PromptSessionMessages, Folders,
     Skills, SkillVersions, SkillFiles, SkillFileBlobs]

  const JOB_TABLES: seq<Table> :=
    [BatchJobs, TempTokens, McpOauthFlows, McpOauthTokens, McpPerUserHeaderFlows, McpPerUserHeaderCredentials,
     OauthUserSessions, OauthUserTokens, EnterpriseMcpToolGroups, EnterpriseMcpToolGroupVirtualKeys]

  const B_CLASS_TABLES: seq<Table> := GOVERNANCE_TABLES + (CONTENT_TABLES + JOB_TABLES)

  const C_CLASS_TABLE: Table := ConfigKeys

  const SESSIONS_TABLE: Table := Sessions

  function TenantScopedTables(): seq<Table> {
    B_CLASS_TABLES + [C_CLASS_TABLE, SESSIONS_TABLE]
  }

  /** A table in no list has no kind; it is not strict by default. */
  function PolicyKindFor(t: Table): Option<PolicyKind> {
    match t
    case ConfigKeys => Some(PolicyPool)
    case Sessions => Some(PolicyExclusive)
    case Other(_) => None
    case _ => Some(PolicyStrict)
  }

  /** The columns that hold the id of a row of another table, by the name they have in the schema. */
  datatype Column =
    | CustomerId | TeamId | RateLimitId | VirtualKeyId | TableVirtualKeyProviderConfigId | ProviderConfigId
    | FolderId | PromptId | VersionId | SessionId | SkillId | SkillVersionId | BlobId | ToolGroupId
    | OtherColumn(name: string)

  /** The child's column holds the id of a row of the parent. */
  datatype TenantFK = TenantFK(name: string, child: Table, column: Column, parent: Table)

  datatype OnDelete = NoAction | Cascade | SetNull

  /** A key that upstream declares itself: one column, the parent's id, and what a delete of the parent does. */
  datatype UpstreamFK = UpstreamFK(child: Table, column: Column, parent: Table, onDelete: OnDelete)

  predicate SameEdge(e: UpstreamFK, fk: TenantFK) {
    e.child == fk.child && e.column == fk.column && e.parent == fk.parent
  }

  const GOVERNANCE_FKS: seq<TenantFK> :=
    [TenantFK("fk_teams_tenant_customer", GovernanceTeams, CustomerId, GovernanceCustomers),
     TenantFK("fk_vk_tenant_team", GovernanceVirtualKeys, TeamId, GovernanceTeams),
     TenantFK("fk_vk_tenant_customer", GovernanceVirtualKeys, CustomerId, GovernanceCustomers),
     TenantFK("fk_vk_tenant_ratelimit", GovernanceVirtualKeys, RateLimitId, GovernanceRateLimits),
     TenantFK("fk_vkpc_tenant_vk", GovernanceVirtualKeyProviderConfigs, VirtualKeyId, GovernanceVirtualKeys),
     TenantFK("fk_vkpc_tenant_ratelimit", GovernanceVirtualKeyProviderConfigs, RateLimitId, GovernanceRateLimits),
     TenantFK("fk_vkmc_tenant_vk", GovernanceVirtualKeyMcpConfigs, VirtualKeyId, GovernanceVirtualKeys),
     TenantFK("fk_vkpck_tenant_vkpc", GovernanceVirtualKeyProviderConfigKeys, TableVirtualKeyProviderConfigId, GovernanceVirtualKeyProviderConfigs)]

  const BUDGET_FKS: seq<TenantFK> :=
    [TenantFK("fk_budget_tenant_vk", GovernanceBudgets, VirtualKeyId, GovernanceVirtualKeys),
     TenantFK("fk_budget_tenant_team", GovernanceBudgets, TeamId, GovernanceTeams),
     TenantFK("fk_budget_tenant_customer", GovernanceBudgets, CustomerId, GovernanceCustomers),
     TenantFK("fk_budget_tenant_vkpc", GovernanceBudgets, ProviderConfigId, GovernanceVirtualKeyProviderConfigs)]

  const PROMPT_FKS: seq<TenantFK> :=
    [TenantFK("fk_prompts_tenant_folder", Prompts, FolderId, Folders),
     TenantFK("fk_pv_tenant_prompt", PromptVersions, PromptId, Prompts),
     TenantFK("fk_ps_tenant_prompt", PromptSessions, PromptId, Prompts),
     TenantFK("fk_ps_tenant_version", PromptSessions, VersionId, PromptVersions),
     TenantFK("fk_psm_tenant_prompt", PromptSessionMessages, PromptId, Prompts),
     TenantFK("fk_psm_tenant_session", PromptSessionMessages, SessionId, PromptSessions)]

  const SKILL_FKS: seq<TenantFK> :=
    [TenantFK("fk_sv_tenant_skill", SkillVersions, SkillId, Skills),
     TenantFK("fk_sf_tenant_version", SkillFiles, SkillVersionId, SkillVersions),
     TenantFK("fk_sf_tenant_blob", SkillFiles, BlobId, SkillFileBlobs)]

  const TOOL_GROUP_FKS: seq<TenantFK> :=
    [TenantFK("fk_mcptg_vk_tenant_group", EnterpriseMcpToolGroupVirtualKeys, ToolGroupId, EnterpriseMcpToolGroups),
     TenantFK("fk_mcptg_vk_tenant_vk", EnterpriseMcpToolGroupVirtualKeys, VirtualKeyId, GovernanceVirtualKeys)]

  const TENANT_FKS: seq<TenantFK> := GOVERNANCE_FKS + (BUDGET_FKS + (PROMPT_FKS + (SKILL_FKS + TOOL_GROUP_FKS)))

  lemma GovernanceListed(t: Table)
    ensures t in GOVERNANCE_TABLES <==>
      t.GovernanceCustomers? || t.GovernanceTeams? || t.GovernanceVirtualKeys? || t.GovernanceVirtualKeyProviderConfigs?
      || t.GovernanceVirtualKeyProviderConfigKeys? || t.GovernanceVirtualKeyMcpConfigs? || t.GovernanceBudgets? || t.GovernanceRateLimits?
  {
    var s := GOVERNANCE_TABLES;
    assert s[0].GovernanceCustomers? && s[1].GovernanceTeams? && s[2].GovernanceVirtualKeys?
      && s[3].GovernanceVirtualKeyProviderConfigs? && s[4].GovernanceVirtualKeyProviderConfigKeys?
      && s[5].GovernanceVirtualKeyMcpConfigs? && s[6].GovernanceBudgets? && s[7].GovernanceRateLimits?;
  }

  lemma ContentListed(t: Table)
    ensures t in CONTENT_TABLES <==>
      t.Prompts? || t.PromptVersions? || t.PromptSessions? || t.PromptSessionMessages? || t.Folders?
      || t.Skills? || t.SkillVersions? || t.SkillFiles? || t.SkillFileBlobs?
  {
    var s := CONTENT_TABLES;
    assert s[0].Prompts? && s[1].PromptVersions? && s[2].PromptSessions? && s[3].PromptSessionMessages? && s[4].Folders?
      && s[5].Skills? && s[6].SkillVersions? && s[7].SkillFiles? && s[8].SkillFileBlobs?;
  }

  lemma JobsListed(t: Table)
    ensures t in JOB_TABLES <==>
      t.BatchJobs? || t.TempTokens? || t.McpOauthFlows? || t.McpOauthTokens? || t.McpPerUserHeaderFlows?
      || t.McpPerUserHeaderCredentials? || t.OauthUserSessions? || t.OauthUserTokens? || t.EnterpriseMcpToolGroups?
      || t.EnterpriseMcpToolGroupVirtualKeys?
  {
    var s := JOB_TABLES;
    assert s[0].BatchJobs? && s[1].TempTokens? && s[2].McpOauthFlows? && s[3].McpOauthTokens? && s[4].McpPerUserHeaderFlows?
      && s[5].McpPerUserHeaderCredentials? && s[6].OauthUserSessions? && s[7].OauthUserTokens?
      && s[8].EnterpriseMcpToolGroups? && s[9].EnterpriseMcpToolGroupVirtualKeys?;
  }

  /** The classification and the lists agree: strict means B-class, and every classified table is listed. */
  lemma StrictIffBClass(t: Table)
    ensures PolicyKindFor(t) == Some(PolicyStrict) <==> t in B_CLASS_TABLES
    ensures PolicyKindFor(t).Some? <==> t in TenantScopedTables()
  {
    GovernanceListed(t);
    ContentListed(t);
    JobsListed(t);
    assert t in B_CLASS_TABLES <==> t in GOVERNANCE_TABLES || t in CONTENT_TABLES || t in JOB_TABLES;
    assert t in TenantScopedTables() <==> t in B_CLASS_TABLES || t in [C_CLASS_TABLE, SESSIONS_TABLE];
  }

  predicate StrictEdge(fk: TenantFK) {
    PolicyKindFor(fk.child) == Some(PolicyStrict) && PolicyKindFor(fk.parent) == Some(PolicyStrict)
  }

  /** Both ends of every edge are strict. */
  lemma EdgesAreStrict(fk: TenantFK)
    requires fk in TENANT_FKS
    ensures StrictEdge(fk)
  {
    assert forall e :: e in GOVERNANCE_FKS ==> StrictEdge(e);
    assert forall e :: e in BUDGET_FKS ==> StrictEdge(e);
    assert forall e :: e in PROMPT_FKS ==> StrictEdge(e);
    assert forall e :: e in SKILL_FKS ==> StrictEdge(e);
    assert forall e :: e in TOOL_GROUP_FKS ==> StrictEdge(e);
  }

  /** In every edge the column tells the parent. */
  function ParentByColumn(column: Column): Table {
    match column
    case CustomerId => GovernanceCustomers
    case TeamId => GovernanceTeams
    case RateLimitId => GovernanceRateLimits
    case VirtualKeyId => GovernanceVirtualKeys
    case TableVirtualKeyProviderConfigId => GovernanceVirtualKeyProviderConfigs
    case ProviderConfigId => GovernanceVirtualKeyProviderConfigs
    case FolderId => Folders
    case PromptId => Prompts
    case VersionId => PromptVersions
    case SessionId => PromptSessions
    case SkillId => Skills
    case SkillVersionId => SkillVersions
    case BlobId => SkillFileBlobs
    case ToolGroupId => EnterpriseMcpToolGroups
    case OtherColumn(name) => Other(name)
  }

  lemma GovernanceColumns(fk: TenantFK)
    requires fk in GOVERNANCE_FKS
    ensures fk.parent == ParentByColumn(fk.column)
  {
  }

  lemma BudgetColumns(fk: TenantFK)
    requires fk in BUDGET_FKS
    ensures fk.parent == ParentByColumn(fk.column)
  {
  }

  lemma PromptColumns(fk: TenantFK)
    requires fk in PROMPT_FKS
    ensures fk.parent == ParentByColumn(fk.column)
  {
  }

  lemma SkillColumns(fk: TenantFK)
    requires fk in SKILL_FKS
    ensures fk.parent == ParentByColumn(fk.column)
  {
  }

  lemma ToolGroupColumns(fk: TenantFK)
    requires fk in TOOL_GROUP_FKS
    ensures fk.parent == ParentByColumn(fk.column)
  {
  }

  lemma ColumnTellsParent(fk: TenantFK)
    requires fk in TENANT_FKS
    ensures fk.parent == ParentByColumn(fk.column)
  {
    if fk in GOVERNANCE_FKS { GovernanceColumns(fk); }
    else if fk in BUDGET_FKS { BudgetColumns(fk); }
    else if fk in PROMPT_FKS { PromptColumns(fk); }
    else if fk in SKILL_FKS { SkillColumns(fk); }
    else { ToolGroupColumns(fk); }
  }

  /** Every table that an edge points at, once: the tables that need a unique (tenant_id, id). */
  method ParentTables(fks: seq<TenantFK>) returns (parents: seq<Table>)
    ensures Distinct(parents)
    ensures forall t :: t in parents <==> exists i :: 0 <= i < |fks| && fks[i].parent == t
  {
    var seen: set<Table> := {};
    parents := [];
    for i := 0 to |fks|
      invariant forall t :: t in seen <==> t in parents
      invariant Distinct(parents)
      invariant forall t :: t in parents <==> exists j :: 0 <= j < i && fks[j].parent == t
    {
      if fks[i].parent !in seen {
        seen := seen + {fks[i].parent};
        parents := parents + [fks[i].parent];
      }
    }
  }
}
