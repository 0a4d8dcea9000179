/** Who has access, what counts as a tightening, and what the retrieval gate shows, written out in terms of the fields. */
module AccessLaws {
  import opened Common
  import opened Policy
  import opened ControlPlane
  import opened Lifecycle
  import opened DataPlane

  // ---------------------------------------------------------------------
  // The truth table
  // ---------------------------------------------------------------------

  /** Denied by name or through some group. */
  ghost predicate DeniedBy(ctx: SecurityContext, acl: ResourceAcl) {
    ctx.userId in acl.deniedUsers || exists g :: g in ctx.groups && g in acl.deniedGroups
  }

  /** Let in by scope, by name, or through some group. */
  ghost predicate LetInBy(ctx: SecurityContext, acl: ResourceAcl) {
    acl.scope.TenantWide? || ctx.userId in acl.allowedUsers || exists g :: g in ctx.groups && g in acl.allowedGroups
  }

  /** Access is for callers of the tenant that are cleared for the level, let in, and not denied: a denial wins. */
  lemma AccessIff(ctx: SecurityContext, acl: ResourceAcl)
    ensures EvaluateAccess(ctx, acl) <==>
            ctx.tenantId == acl.tenantId && acl.securityLevel in ctx.allowedLevels && LetInBy(ctx, acl) && !DeniedBy(ctx, acl)
  {
  }

  /** A filter behaves as the truth table on every payload of its corpus that is active and not deprecated, and lets
      nothing else through. */
  lemma FilterIff(ctx: SecurityContext, acl: ResourceAcl, status: string, deprecated: bool)
    ensures ResourcePassesFilter(ctx, acl, status, deprecated) <==>
            status == "active" && !deprecated && ctx.tenantId == acl.tenantId && acl.securityLevel in ctx.allowedLevels
            && LetInBy(ctx, acl) && !DeniedBy(ctx, acl)
  {
    AccessIff(ctx, acl);
  }

  // ---------------------------------------------------------------------
  // Tightening
  // ---------------------------------------------------------------------

  /** Nothing is opened: not the scope, not the level, not to a user or a group, and no denial is lifted. */
  ghost predicate OpensNothing(was: ResourceAcl, now: ResourceAcl) {
    && (now.scope.TenantWide? ==> was.scope.TenantWide?)
    && LevelRank(was.securityLevel) <= LevelRank(now.securityLevel)
    && (forall u :: u in now.allowedUsers ==> u in was.allowedUsers)
    && (forall g :: g in now.allowedGroups ==> g in was.allowedGroups)
    && (forall u :: u in was.deniedUsers ==> u in now.deniedUsers)
    && (forall g :: g in was.deniedGroups ==> g in now.deniedGroups)
  }

  lemma TighteningIff(was: ResourceAcl, now: ResourceAcl)
    ensures IsAclTightening(was, now) <==> OpensNothing(was, now)
  {
  }

  /** Levels rank from public over internal to secret, and unknown ones above. */
  lemma LevelsRank(level: string)
    ensures LevelRank("public") < LevelRank("internal") < LevelRank("secret")
    ensures level != "public" && level != "internal" && level != "secret" ==> LevelRank("secret") < LevelRank(level)
  {
    assert "public"[0] != "internal"[0] && "internal"[0] != "secret"[0] && "public"[0] != "secret"[0];
  }

  /** A chain of tightenings is one, and leaving an ACL as it is counts as one. */
  lemma TighteningsCompose(a: ResourceAcl, b: ResourceAcl, c: ResourceAcl)
    ensures IsAclTightening(a, a)
    ensures IsAclTightening(a, b) && IsAclTightening(b, c) ==> IsAclTightening(a, c)
  {
  }

  /** Rejections are not idle: letting a single user in, or lifting a single denial, is rejected and does give some
      caller an access it did not have, whenever the rest of the new ACL admits that caller. */
  lemma RejectedWidens(was: ResourceAcl, now: ResourceAcl, user: string)
    requires was.tenantId == now.tenantId
    requires now.scope.TenantWide? || user in now.allowedUsers
    requires user !in now.deniedUsers && (user in was.deniedUsers || (was.scope == Restricted && user !in was.allowedUsers))
    ensures !IsAclTightening(was, now)
    ensures var ctx := SecurityContext(now.tenantId, user, [], [now.securityLevel]);
            EvaluateAccess(ctx, now) && !EvaluateAccess(ctx, was)
  {
  }

  // ---------------------------------------------------------------------
  // The retrieval gate
  // ---------------------------------------------------------------------

  /** The same ACL but for the tenant it is filed under. */
  predicate SameRights(a: ResourceAcl, b: ResourceAcl) {
    && a.securityLevel == b.securityLevel && a.scope == b.scope && a.allowedUsers == b.allowedUsers
    && a.allowedGroups == b.allowedGroups && a.deniedUsers == b.deniedUsers && a.deniedGroups == b.deniedGroups
  }

  predicate Live(status: string, deprecated: bool) {
    status == "active" && !deprecated
  }

  /** The parent that a hit of this caller may load. */
  ghost predicate Loads(parent: Parent, hit: Point, ctx: SecurityContext) {
    && parent.key == hit.key && Live(parent.status, parent.deprecated) && SameRights(parent.acl, hit.acl)
    && EvaluateAccess(ctx, hit.acl.(tenantId := hit.key.doc.tenant))
  }

  /** A hit loads its parent exactly when that is live, of the same tenant, corpus, document and version, under the same
      rights, and these admit the caller. Otherwise the error says what is wrong: nothing there; another version, for the
      document's own tenant; the right version, but not live; or anything else. */
  lemma LoadsIff(parents: map<ChunkId, Parent>, hit: Point, ctx: SecurityContext)
    ensures var r, there := LoadParent(parents, hit, ctx), hit.parent in parents;
            && (r.Ok? <==> there && Loads(parents[hit.parent], hit, ctx))
            && (r.Ok? ==> r.value == parents[hit.parent])
            && (r == Err(ParentNotFound) <==> !there)
            && (r == Err(VersionMismatch) <==>
                  there && ctx.tenantId == hit.key.doc.tenant
                  && parents[hit.parent].key.doc == hit.key.doc && parents[hit.parent].key.version != hit.key.version)
            && (r == Err(ParentDeleted) <==>
                  there && ctx.tenantId == hit.key.doc.tenant
                  && parents[hit.parent].key == hit.key && !Live(parents[hit.parent].status, parents[hit.parent].deprecated))
  {
    hide EvaluateAccess;
    if hit.parent in parents {
      var p := parents[hit.parent];
      RightsIff(p.acl, hit.acl, hit.key.doc.tenant);
      AccessNeedsTenant(ctx, hit.acl.(tenantId := hit.key.doc.tenant));
    }
  }

  lemma RightsIff(a: ResourceAcl, b: ResourceAcl, tenant: string)
    ensures SameAcl(a, b) <==> SameRights(a, b)
    ensures SameAcl(a, b) ==> a.(tenantId := tenant) == b.(tenantId := tenant)
  {
  }

  /** A chunk is shown exactly when its point is live, belongs to the active version of a document of the corpus, and
      loads its parent. */
  lemma VisibleIff(w: World, ctx: SecurityContext, corpus: string, id: ChunkId)
    requires AtMostOneActive(w.meta.documents)
    ensures Visible(w, ctx, corpus, id) <==>
            && id in w.points
            && var p := w.points[id];
               && p.key.doc.corpus == corpus && Live(p.status, p.deprecated)
               && p.key in w.meta.documents && w.meta.documents[p.key].status == Active
               && p.parent in w.parents && Loads(w.parents[p.parent], p, ctx)
  {
    hide EvaluateAccess, ActiveVersion, LoadParent;
    if id in w.points {
      var p := w.points[id];
      LoadsIff(w.parents, p, ctx);
      if IsActive(w.meta.documents, p.key) { ActiveVersionIs(w.meta.documents, p.key); }
    }
  }
}
