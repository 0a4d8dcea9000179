/** The policy decision point, the Qdrant filter derived from it, and ACL tightening. */
module Policy {
  import opened Common

  datatype Scope = TenantWide | Restricted

  datatype ResourceAcl = ResourceAcl(
    tenantId: string,
    securityLevel: string,
    scope: Scope,
    allowedUsers: seq<string>,
    allowedGroups: seq<string>,
    deniedUsers: seq<string>,
    deniedGroups: seq<string>)

  datatype SecurityContext = SecurityContext(
    tenantId: string,
    userId: string,
    groups: seq<string>,
    allowedLevels: seq<string>)

  predicate Intersects(a: seq<string>, b: seq<string>) {
    exists x | x in a :: x in b
  }

  /** The canonical truth table: tenant, deny, level, scope, in that order. */
  predicate EvaluateAccess(ctx: SecurityContext, acl: ResourceAcl) {
    if ctx.tenantId != acl.tenantId then false
    else if ctx.userId in acl.deniedUsers then false
    else if Intersects(ctx.groups, acl.deniedGroups) then false
    else if acl.securityLevel !in ctx.allowedLevels then false
    else if acl.scope == TenantWide then true
    else if ctx.userId in acl.allowedUsers then true
    else Intersects(ctx.groups, acl.allowedGroups)
  }

  lemma AccessNeedsTenant(ctx: SecurityContext, acl: ResourceAcl)
    ensures EvaluateAccess(ctx, acl) ==> ctx.tenantId == acl.tenantId
  {
  }

  /** The projection of the filter used where the resource is already loaded. */
  predicate ResourcePassesFilter(ctx: SecurityContext, acl: ResourceAcl, status: string, deprecated: bool) {
    status == "active" && !deprecated && EvaluateAccess(ctx, acl)
  }

  // ---------------------------------------------------------------------
  // Qdrant filters: a field condition holds when one of its values occurs in
  // the field, a nested filter recurses, and `should` needs one match.
  // ---------------------------------------------------------------------

  datatype Field =
    | TenantField | CorpusField | StatusField | DeprecatedField | LevelField | ScopeField
    | AllowedUsersField | AllowedGroupsField | DeniedUsersField | DeniedGroupsField

  datatype Condition =
    | MatchAny(field: Field, values: seq<string>)
    | Should(conditions: seq<Condition>)

  datatype Filter = Filter(must: seq<Condition>, mustNot: seq<Condition>)

  datatype Payload = Payload(corpusId: string, acl: ResourceAcl, status: string, deprecated: bool)

  function BoolText(b: bool): string {
    if b then "true" else "false"
  }

  function ScopeText(s: Scope): string {
    if s == TenantWide then "tenant" else "restricted"
  }

  /** The values a payload holds under one field; a scalar is a one-element list. */
  function FieldValues(p: Payload, f: Field): seq<string> {
    match f
    case TenantField => [p.acl.tenantId]
    case CorpusField => [p.corpusId]
    case StatusField => [p.status]
    case DeprecatedField => [BoolText(p.deprecated)]
    case LevelField => [p.acl.securityLevel]
    case ScopeField => [ScopeText(p.acl.scope)]
    case AllowedUsersField => p.acl.allowedUsers
    case AllowedGroupsField => p.acl.allowedGroups
    case DeniedUsersField => p.acl.deniedUsers
    case DeniedGroupsField => p.acl.deniedGroups
  }

  predicate Holds(c: Condition, p: Payload) {
    match c
    case MatchAny(f, values) => Intersects(values, FieldValues(p, f))
    case Should(cs) => exists i | 0 <= i < |cs| :: Holds(cs[i], p)
  }

  predicate Matches(f: Filter, p: Payload) {
    && (forall i | 0 <= i < |f.must| :: Holds(f.must[i], p))
    && (forall i | 0 <= i < |f.mustNot| :: !Holds(f.mustNot[i], p))
  }

  datatype FilterError = EmptyAuthorizationScope

  lemma SingletonIntersects(x: string, s: seq<string>)
    ensures Intersects([x], s) <==> x in s
    ensures Intersects(s, [x]) <==> x in s
  {
    assert x in [x];
  }

  /** A `should` over its two fixed branches and the optional group branch. */
  lemma ScopeBranchMeaning(ctx: SecurityContext, scopes: seq<Condition>, p: Payload)
    requires scopes == [MatchAny(ScopeField, ["tenant"]), MatchAny(AllowedUsersField, [ctx.userId])]
                       + if ctx.groups != [] then [MatchAny(AllowedGroupsField, ctx.groups)] else []
    ensures Holds(Should(scopes), p) <==>
            p.acl.scope == TenantWide || ctx.userId in p.acl.allowedUsers || Intersects(ctx.groups, p.acl.allowedGroups)
  {
    SingletonIntersects("tenant", [ScopeText(p.acl.scope)]);
    SingletonIntersects(ctx.userId, p.acl.allowedUsers);
    assert "tenant"[0] != "restricted"[0];
    assert Holds(scopes[0], p) <==> p.acl.scope == TenantWide;
    assert Holds(scopes[1], p) <==> ctx.userId in p.acl.allowedUsers;
    if ctx.groups != [] {
      assert Holds(scopes[2], p) <==> Intersects(ctx.groups, p.acl.allowedGroups);
    }
  }

  lemma MustMeaning(ctx: SecurityContext, corpusId: string, must: seq<Condition>, scopes: seq<Condition>, p: Payload)
    requires must == [MatchAny(TenantField, [ctx.tenantId]), MatchAny(CorpusField, [corpusId]),
                      MatchAny(StatusField, ["active"]), MatchAny(DeprecatedField, ["false"]),
                      MatchAny(LevelField, ctx.allowedLevels), Should(scopes)]
    ensures (forall i | 0 <= i < |must| :: Holds(must[i], p)) <==>
            ctx.tenantId == p.acl.tenantId && corpusId == p.corpusId && p.status == "active" && !p.deprecated
            && p.acl.securityLevel in ctx.allowedLevels && Holds(Should(scopes), p)
  {
    SingletonIntersects(ctx.tenantId, [p.acl.tenantId]);
    SingletonIntersects(corpusId, [p.corpusId]);
    SingletonIntersects("active", [p.status]);
    SingletonIntersects("false", [BoolText(p.deprecated)]);
    SingletonIntersects(p.acl.securityLevel, ctx.allowedLevels);
    assert "true"[0] != "false"[0];
    assert Holds(must[0], p) <==> ctx.tenantId == p.acl.tenantId;
    assert Holds(must[1], p) <==> corpusId == p.corpusId;
    assert Holds(must[2], p) <==> p.status == "active";
    assert Holds(must[3], p) <==> !p.deprecated;
    assert Holds(must[4], p) <==> p.acl.securityLevel in ctx.allowedLevels;
    assert must[5] == Should(scopes);
  }

  lemma MustNotMeaning(ctx: SecurityContext, mustNot: seq<Condition>, p: Payload)
    requires mustNot == [MatchAny(DeniedUsersField, [ctx.userId])]
                        + if ctx.groups != [] then [MatchAny(DeniedGroupsField, ctx.groups)] else []
    ensures (forall i | 0 <= i < |mustNot| :: !Holds(mustNot[i], p)) <==>
            ctx.userId !in p.acl.deniedUsers && !Intersects(ctx.groups, p.acl.deniedGroups)
  {
    SingletonIntersects(ctx.userId, p.acl.deniedUsers);
    assert Holds(mustNot[0], p) <==> ctx.userId in p.acl.deniedUsers;
    if ctx.groups != [] {
      assert Holds(mustNot[1], p) <==> Intersects(ctx.groups, p.acl.deniedGroups);
    }
  }

  /** Derive the filter. It fails closed on an empty scope; otherwise it selects
      exactly the payloads of the corpus that the truth table admits. */
  method BuildAccessFilter(ctx: SecurityContext, corpusId: string) returns (r: Result<Filter, FilterError>)
    ensures r.Err? <==> ctx.allowedLevels == []
    ensures r.Ok? ==> forall p: Payload ::
              Matches(r.value, p) <==>
              p.corpusId == corpusId && ResourcePassesFilter(ctx, p.acl, p.status, p.deprecated)
    ensures r.Err? ==> forall acl: ResourceAcl :: !EvaluateAccess(ctx, acl)
  {
    if ctx.allowedLevels == [] {
      return Err(EmptyAuthorizationScope);
    }
    var scopes := [MatchAny(ScopeField, ["tenant"]), MatchAny(AllowedUsersField, [ctx.userId])];
    if ctx.groups != [] {
      scopes := scopes + [MatchAny(AllowedGroupsField, ctx.groups)];
    }
    var must := [
      MatchAny(TenantField, [ctx.tenantId]),
      MatchAny(CorpusField, [corpusId]),
      MatchAny(StatusField, ["active"]),
      MatchAny(DeprecatedField, ["false"]),
      MatchAny(LevelField, ctx.allowedLevels),
      Should(scopes)];
    var mustNot := [MatchAny(DeniedUsersField, [ctx.userId])];
    if ctx.groups != [] {
      mustNot := mustNot + [MatchAny(DeniedGroupsField, ctx.groups)];
    }
    forall p: Payload
      ensures Matches(Filter(must, mustNot), p) <==>
              p.corpusId == corpusId && ResourcePassesFilter(ctx, p.acl, p.status, p.deprecated)
    {
      MustMeaning(ctx, corpusId, must, scopes, p);
      MustNotMeaning(ctx, mustNot, p);
      ScopeBranchMeaning(ctx, scopes, p);
    }
    r := Ok(Filter(must, mustNot));
  }

  // ---------------------------------------------------------------------
  // Tightening
  // ---------------------------------------------------------------------

  /** Restrictiveness rank; an unknown level ranks above every known one. */
  function LevelRank(level: string): nat {
    if level == "public" then 0 else if level == "internal" then 1 else if level == "secret" then 2 else 3
  }

  predicate Subset(a: seq<string>, b: seq<string>) {
    forall x | x in a :: x in b
  }

  predicate IsAclTightening(old_: ResourceAcl, new_: ResourceAcl) {
    if new_.scope == TenantWide && old_.scope == Restricted then false
    else if LevelRank(new_.securityLevel) < LevelRank(old_.securityLevel) then false
    else if !Subset(new_.allowedUsers, old_.allowedUsers) then false
    else if !Subset(new_.allowedGroups, old_.allowedGroups) then false
    else if !Subset(old_.deniedUsers, new_.deniedUsers) then false
    else Subset(old_.deniedGroups, new_.deniedGroups)
  }

  /** A caller cleared for a level is cleared for every level ranked no higher. */
  ghost predicate ClearanceClosed(ctx: SecurityContext) {
    forall high: string, low: string ::
      high in ctx.allowedLevels && LevelRank(low) <= LevelRank(high) ==> low in ctx.allowedLevels
  }

  /** No accepted tightening gives this caller an access it did not have. */
  ghost predicate TighteningNeverWidens(ctx: SecurityContext) {
    forall old_: ResourceAcl, new_: ResourceAcl ::
      old_.tenantId == new_.tenantId && IsAclTightening(old_, new_) && EvaluateAccess(ctx, new_)
      ==> EvaluateAccess(ctx, old_)
  }

  /** Without closed clearances the rank comparison alone can admit a widening. */
  lemma UnclosedClearanceWidens(ctx: SecurityContext, high: string, low: string)
    requires high in ctx.allowedLevels && low !in ctx.allowedLevels && LevelRank(low) <= LevelRank(high)
    ensures !TighteningNeverWidens(ctx)
  {
    var before := ResourceAcl(ctx.tenantId, low, TenantWide, [], [], [], []);
    var after := ResourceAcl(ctx.tenantId, high, TenantWide, [], [], [], []);
    assert EvaluateAccess(ctx, after) && !EvaluateAccess(ctx, before) && IsAclTightening(before, after);
  }

  lemma ClosedClearanceNeverWidens(ctx: SecurityContext, old_: ResourceAcl, new_: ResourceAcl)
    requires ClearanceClosed(ctx) && old_.tenantId == new_.tenantId
    requires IsAclTightening(old_, new_) && EvaluateAccess(ctx, new_)
    ensures EvaluateAccess(ctx, old_)
  {
    assert old_.securityLevel in ctx.allowedLevels;
  }

  /** Tightening is safe for a caller exactly when its clearances are closed
      under lower-or-equal rank. */
  lemma TighteningSafeIffClearanceClosed(ctx: SecurityContext)
    ensures TighteningNeverWidens(ctx) <==> ClearanceClosed(ctx)
  {
    if ClearanceClosed(ctx) {
      forall old_: ResourceAcl, new_: ResourceAcl
        | old_.tenantId == new_.tenantId && IsAclTightening(old_, new_) && EvaluateAccess(ctx, new_)
        ensures EvaluateAccess(ctx, old_)
      {
        ClosedClearanceNeverWidens(ctx, old_, new_);
      }
    } else {
      var high: string, low: string :|
        high in ctx.allowedLevels && LevelRank(low) <= LevelRank(high) && low !in ctx.allowedLevels;
      UnclosedClearanceWidens(ctx, high, low);
    }
  }
}
