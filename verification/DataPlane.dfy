/** The rebuildable data planes next to the control plane, and the retrieval gate
    that decides which of their chunks a caller can see. */
module DataPlane {
  import opened Common
  import opened Policy
  import opened ControlPlane
  import opened Lifecycle

  /** A child chunk's Qdrant payload. Point ids are an injective function of chunk
      ids, so the collection is keyed by chunk id. */
  datatype Point = Point(key: Key, parent: ChunkId, text: string, status: string, deprecated: bool, acl: ResourceAcl)

  datatype Parent = Parent(key: Key, text: string, status: string, deprecated: bool, acl: ResourceAcl)

  datatype World = World(meta: State, points: map<ChunkId, Point>, parents: map<ChunkId, Parent>)

  // ---------------------------------------------------------------------
  // Parent second authorization
  // ---------------------------------------------------------------------

  datatype ParentError = ParentNotFound | NotAuthorized | VersionMismatch | ParentDeleted

  function SameAcl(a: ResourceAcl, b: ResourceAcl): bool {
    a.(tenantId := b.tenantId) == b
  }

  /** Load the parent of an authorized hit and re-establish every boundary before returning it. */
  function LoadParent(parents: map<ChunkId, Parent>, hit: Point, ctx: SecurityContext): Result<Parent, ParentError> {
    if hit.parent !in parents then Err(ParentNotFound)
    else
      var parent := parents[hit.parent];
      if hit.key.doc.tenant != parent.key.doc.tenant then Err(NotAuthorized)
      else if parent.key.doc.tenant != ctx.tenantId then Err(NotAuthorized)
      else if parent.key.doc.corpus != hit.key.doc.corpus then Err(NotAuthorized)
      else if parent.key.doc.document != hit.key.doc.document then Err(NotAuthorized)
      else if parent.key.version != hit.key.version then Err(VersionMismatch)
      else if parent.status != "active" || parent.deprecated then Err(ParentDeleted)
      else if !SameAcl(parent.acl, hit.acl) then Err(NotAuthorized)
      else if !ResourcePassesFilter(ctx, parent.acl.(tenantId := parent.key.doc.tenant), parent.status, parent.deprecated)
      then Err(NotAuthorized)
      else Ok(parent)
  }

  // ---------------------------------------------------------------------
  // Retrieval
  // ---------------------------------------------------------------------

  /** The access filter, as established for BuildAccessFilter. */
  predicate PassesSearch(p: Point, ctx: SecurityContext, corpus: string) {
    p.key.doc.corpus == corpus
    && ResourcePassesFilter(ctx, p.acl.(tenantId := p.key.doc.tenant), p.status, p.deprecated)
  }

  /** Search filter, control-plane version gate, parent second authorization. */
  ghost predicate Visible(w: World, ctx: SecurityContext, corpus: string, id: ChunkId) {
    && id in w.points
    && PassesSearch(w.points[id], ctx, corpus)
    && ActiveVersion(w.meta.documents, w.points[id].key.doc) == Some(w.points[id].key.version)
    && LoadParent(w.parents, w.points[id], ctx).Ok?
  }

  /** The chunks of document `d` a caller can retrieve. */
  ghost function Retrievable(w: World, ctx: SecurityContext, d: DocId): set<ChunkId> {
    set id | id in w.points && w.points[id].key.doc == d && Visible(w, ctx, d.corpus, id)
  }
}
