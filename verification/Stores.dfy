/** The vector store and the parent store as mutable maps. */
module Stores {
  import opened Common
  import opened Policy
  import opened ControlPlane
  import opened DataPlane

  function WithStatus(p: Parent, status: string, deprecated: bool): Parent {
    p.(status := status, deprecated := deprecated)
  }

  class ParentStore {
    var entries: map<ChunkId, Parent>

    constructor ()
      ensures entries == map[]
    {
      entries := map[];
    }

    method Put(id: ChunkId, p: Parent)
      modifies this
      ensures entries == old(entries)[id := p]
    {
      entries := entries[id := p];
    }

    method Delete(id: ChunkId)
      modifies this
      ensures entries == old(entries) - {id}
    {
      entries := entries - {id};
    }

    method Deprecate(id: ChunkId)
      modifies this
      ensures entries == DeprecatedIn(old(entries), id)
    {
      if id in entries {
        entries := entries[id := WithStatus(entries[id], "inactive", true)];
      }
    }

    method Activate(id: ChunkId)
      modifies this
      ensures entries == ActivatedIn(old(entries), id)
    {
      if id in entries {
        entries := entries[id := WithStatus(entries[id], "active", false)];
      }
    }

    /** Every parent of one version, and no other, becomes active. */
    method ActivateDocument(k: Key)
      modifies this
      ensures entries == map id | id in old(entries) ::
                if old(entries)[id].key == k then WithStatus(old(entries)[id], "active", false) else old(entries)[id]
    {
      var rest := entries.Keys;
      while rest != {}
        invariant entries.Keys == old(entries).Keys && rest <= entries.Keys
        invariant forall id | id in entries ::
                    entries[id] == if id !in rest && old(entries)[id].key == k
                                   then WithStatus(old(entries)[id], "active", false) else old(entries)[id]
        decreases rest
      {
        var id :| id in rest;
        rest := rest - {id};
        if entries[id].key == k {
          Activate(id);
        }
      }
    }

    method DeprecateDocument(k: Key)
      modifies this
      ensures entries == map id | id in old(entries) ::
                if old(entries)[id].key == k then WithStatus(old(entries)[id], "inactive", true) else old(entries)[id]
    {
      var rest := entries.Keys;
      while rest != {}
        invariant entries.Keys == old(entries).Keys && rest <= entries.Keys
        invariant forall id | id in entries ::
                    entries[id] == if id !in rest && old(entries)[id].key == k
                                   then WithStatus(old(entries)[id], "inactive", true) else old(entries)[id]
        decreases rest
      {
        var id :| id in rest;
        rest := rest - {id};
        if entries[id].key == k {
          Deprecate(id);
        }
      }
    }

    method DeleteDocument(k: Key)
      modifies this
      ensures entries == map id | id in old(entries) && old(entries)[id].key != k :: old(entries)[id]
    {
      var rest := entries.Keys;
      while rest != {}
        invariant rest <= entries.Keys <= old(entries).Keys
        invariant forall id | id in old(entries) :: id in entries <==> id in rest || old(entries)[id].key != k
        invariant forall id | id in entries :: entries[id] == old(entries)[id]
        decreases rest
      {
        var id :| id in rest;
        rest := rest - {id};
        if entries[id].key == k {
          Delete(id);
        }
      }
    }

    method ListParentIds(k: Key) returns (ids: set<ChunkId>)
      ensures forall id :: id in ids <==> id in entries && entries[id].key == k
    {
      ids := set id | id in entries && entries[id].key == k;
    }
  }

  function DeprecatedIn(entries: map<ChunkId, Parent>, id: ChunkId): map<ChunkId, Parent> {
    if id in entries then entries[id := WithStatus(entries[id], "inactive", true)] else entries
  }

  function ActivatedIn(entries: map<ChunkId, Parent>, id: ChunkId): map<ChunkId, Parent> {
    if id in entries then entries[id := WithStatus(entries[id], "active", false)] else entries
  }

  /** One collection; point ids are keyed by chunk id. */
  class VectorStore {
    var points: map<ChunkId, Point>

    constructor ()
      ensures points == map[]
    {
      points := map[];
    }

    method Upsert(id: ChunkId, p: Point)
      modifies this
      ensures points == old(points)[id := p]
    {
      points := points[id := p];
    }

    method UpsertAll(batch: map<ChunkId, Point>)
      modifies this
      ensures points == old(points) + batch
    {
      var rest := batch.Keys;
      while rest != {}
        invariant rest <= batch.Keys
        invariant points == old(points) + (batch - rest)
        decreases rest
      {
        var id :| id in rest;
        rest := rest - {id};
        Upsert(id, batch[id]);
      }
      assert batch - {} == batch;
    }

    method Delete(ids: set<ChunkId>)
      modifies this
      ensures points == old(points) - ids
    {
      points := points - ids;
    }

    /** Patch the lifecycle fields of existing points; vectors and content stay. */
    method UpdateStatus(ids: set<ChunkId>, status: string, deprecated: bool)
      requires ids <= points.Keys
      modifies this
      ensures points == map id | id in old(points) ::
                if id in ids then old(points)[id].(status := status, deprecated := deprecated) else old(points)[id]
    {
      points := map id | id in points ::
        if id in ids then points[id].(status := status, deprecated := deprecated) else points[id];
    }

    method ListPointIds(k: Key) returns (ids: set<ChunkId>)
      ensures forall id :: id in ids <==> id in points && points[id].key == k
    {
      ids := set id | id in points && points[id].key == k;
    }
  }
}
