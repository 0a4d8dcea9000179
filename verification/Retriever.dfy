/** The retriever's walk over the authorized search hits. */
module Retrievers {
  import opened Common
  import opened Policy
  import opened ControlPlane
  import opened DataPlane
  import opened MetadataStores

  /** What becomes of one search hit. */
  datatype Verdict = Stale | Denied(error: ParentError) | Served(parent: Parent)

  ghost function Judge(docs: map<Key, DocRow>, parents: map<ChunkId, Parent>, ctx: SecurityContext, hit: Point): Verdict {
    if ActiveVersion(docs, hit.key.doc) != Some(hit.key.version) then Stale
    else match LoadParent(parents, hit, ctx)
      case Err(e) => Denied(e)
      case Ok(p) => Served(p)
  }

  ghost function ServedFrom(
      docs: map<Key, DocRow>, parents: map<ChunkId, Parent>, ctx: SecurityContext, hits: seq<Point>): seq<(Point, Parent)>
  {
    if hits == [] then []
    else
      var last := hits[|hits| - 1];
      var v := Judge(docs, parents, ctx, last);
      ServedFrom(docs, parents, ctx, hits[..|hits| - 1]) + (if v.Served? then [(last, v.parent)] else [])
  }

  ghost function DeniedFor(
      docs: map<Key, DocRow>, parents: map<ChunkId, Parent>, ctx: SecurityContext, hits: seq<Point>, e: ParentError): nat
  {
    if hits == [] then 0
    else
      DeniedFor(docs, parents, ctx, hits[..|hits| - 1], e)
      + (if Judge(docs, parents, ctx, hits[|hits| - 1]) == Denied(e) then 1 else 0)
  }

  function CountOf(reasons: map<ParentError, nat>, e: ParentError): nat {
    if e in reasons then reasons[e] else 0
  }

  function Total(reasons: map<ParentError, nat>): nat {
    CountOf(reasons, ParentNotFound) + CountOf(reasons, NotAuthorized)
    + CountOf(reasons, VersionMismatch) + CountOf(reasons, ParentDeleted)
  }

  lemma CountNext(reasons: map<ParentError, nat>, e: ParentError)
    ensures var after := reasons[e := CountOf(reasons, e) + 1];
      && Total(after) == Total(reasons) + 1
      && forall f :: CountOf(after, f) == CountOf(reasons, f) + (if e == f then 1 else 0)
  {
  }

  lemma WalkNext(
      docs: map<Key, DocRow>, parents: map<ChunkId, Parent>, ctx: SecurityContext, hits: seq<Point>, i: nat)
    requires i < |hits|
    ensures var v := Judge(docs, parents, ctx, hits[i]);
      && ServedFrom(docs, parents, ctx, hits[..i + 1])
         == ServedFrom(docs, parents, ctx, hits[..i]) + (if v.Served? then [(hits[i], v.parent)] else [])
      && forall e :: DeniedFor(docs, parents, ctx, hits[..i + 1], e)
                     == DeniedFor(docs, parents, ctx, hits[..i], e) + (if v == Denied(e) then 1 else 0)
  {
    assert hits[..i + 1][..i] == hits[..i];
    hide Judge;
  }

  /** Serve each hit of the active version whose parent passes, and count the others' reasons. */
  method Retrieve(store: MetadataStore, parents: map<ChunkId, Parent>, ctx: SecurityContext, hits: seq<Point>)
    returns (served: seq<(Point, Parent)>, denied: nat, reasons: map<ParentError, nat>)
    requires AtMostOneActive(store.documents)
    ensures served == ServedFrom(store.documents, parents, ctx, hits)
    ensures forall e :: CountOf(reasons, e) == DeniedFor(store.documents, parents, ctx, hits, e)
    ensures denied == Total(reasons)
  {
    served, denied, reasons := [], 0, map[];
    assert Total(reasons) == 0;
    assert forall e :: DeniedFor(store.documents, parents, ctx, [], e) == 0;
    assert forall e :: CountOf(map[], e) == 0;
    hide ActiveVersion, LoadParent, ServedFrom, DeniedFor, CountOf, Total;
    for i := 0 to |hits|
      invariant served == ServedFrom(store.documents, parents, ctx, hits[..i])
      invariant forall e :: CountOf(reasons, e) == DeniedFor(store.documents, parents, ctx, hits[..i], e)
      invariant denied == Total(reasons)
    {
      WalkNext(store.documents, parents, ctx, hits, i);
      var hit := hits[i];
      var active := store.CurrentActive(hit.key.doc);
      if active == None || hit.key.version != active.value {
        assert Judge(store.documents, parents, ctx, hit) == Stale;
        continue;
      }
      var loaded := LoadParent(parents, hit, ctx);
      match loaded
      case Err(e) =>
        CountNext(reasons, e);
        denied := denied + 1;
        reasons := reasons[e := CountOf(reasons, e) + 1];
      case Ok(p) =>
        served := served + [(hit, p)];
    }
    assert hits[..|hits|] == hits;
  }

  /** What is served is exactly what the visibility gate lets through, in search order. */
  lemma {:induction false} ServedIsVisible(w: World, ctx: SecurityContext, corpus: string, ids: seq<ChunkId>)
    requires forall id | id in ids :: id in w.points && PassesSearch(w.points[id], ctx, corpus)
    ensures var hits := seq(|ids|, i requires 0 <= i < |ids| => w.points[ids[i]]);
      forall p :: p in ServedFrom(w.meta.documents, w.parents, ctx, hits) <==>
        exists id :: id in ids && Visible(w, ctx, corpus, id) && p == (w.points[id], w.parents[w.points[id].parent])
  {
    hide ActiveVersion, PassesSearch;
    var hits := seq(|ids|, i requires 0 <= i < |ids| => w.points[ids[i]]);
    if ids != [] {
      var n := |ids| - 1;
      ServedIsVisible(w, ctx, corpus, ids[..n]);
      assert hits[..n] == seq(n, i requires 0 <= i < n => w.points[ids[..n][i]]);
      assert ids == ids[..n] + [ids[n]];
    }
  }
  /** How many hits are of the active version of their document. */
  ghost function CurrentHits(docs: map<Key, DocRow>, hits: seq<Point>): nat {
    if hits == [] then 0
    else
      CurrentHits(docs, hits[..|hits| - 1])
      + (if hits[|hits| - 1].key in docs && docs[hits[|hits| - 1].key].status == Active then 1 else 0)
  }

  /** Every hit of an active version is served or counted under exactly one reason, once; stale hits are neither. */
  lemma {:induction false} HitsAccounted(docs: map<Key, DocRow>, parents: map<ChunkId, Parent>, ctx: SecurityContext, hits: seq<Point>)
    requires AtMostOneActive(docs)
    ensures |ServedFrom(docs, parents, ctx, hits)| + DeniedFor(docs, parents, ctx, hits, ParentNotFound)
            + DeniedFor(docs, parents, ctx, hits, NotAuthorized) + DeniedFor(docs, parents, ctx, hits, VersionMismatch)
            + DeniedFor(docs, parents, ctx, hits, ParentDeleted) == CurrentHits(docs, hits)
  {
    hide Judge;
    if hits != [] {
      var last := hits[|hits| - 1];
      HitsAccounted(docs, parents, ctx, hits[..|hits| - 1]);
      StaleIff(docs, parents, ctx, last);
      var v := Judge(docs, parents, ctx, last);
      match v {
        case Denied(e) => assert e.ParentNotFound? || e.NotAuthorized? || e.VersionMismatch? || e.ParentDeleted?;
        case _ =>
      }
    }
  }

  lemma StaleIff(docs: map<Key, DocRow>, parents: map<ChunkId, Parent>, ctx: SecurityContext, hit: Point)
    requires AtMostOneActive(docs)
    ensures Judge(docs, parents, ctx, hit) == Stale <==> !(hit.key in docs && docs[hit.key].status == Active)
  {
    hide ActiveVersion, LoadParent;
    assert hit.key == Key(hit.key.doc, hit.key.version);
    if IsActive(docs, hit.key) { ActiveVersionIs(docs, hit.key); }
  }
}
