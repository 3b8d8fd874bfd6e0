/** Neighbour resolution (`resolve_neighbors`): the edge table of the schema,
    and how each edge turns the active vertex into the vertices it reaches.
    An edge reaches its vertices in one of three ways: by fetching each
    identifier of a list, dropping those that fail; by fetching one optional
    identifier; or by fetching one listing page, all or nothing. */
module Neighbors {
  import opened Wrappers
  import opened Vertices
  import opened Fetch
  import opened Rows
  import opened Ascii

  // ---------------------------------------------------------------------------
  // Fetching

  /** `ids.filter_map(fetch_vertex)`: the successful fetches, in identifier order. */
  function FetchEach(g: Gateway, ids: seq<string>, k: VertexKind): (r: seq<Vertex>)
    ensures |r| <= |ids|
    decreases |ids|
  {
    if ids == [] then []
    else
      match g.fetchVertex(ids[0], k)
      case Some(v) => [v] + FetchEach(g, ids[1..], k)
      case None => FetchEach(g, ids[1..], k)
  }

  /** Fetching a concatenation is concatenating the fetches, so the neighbours
      reached through a prefix of the identifiers come first, unchanged. */
  lemma {:induction false} FetchEachConcat(g: Gateway, a: seq<string>, b: seq<string>, k: VertexKind)
    ensures FetchEach(g, a + b, k) == FetchEach(g, a, k) + FetchEach(g, b, k)
    decreases |a|
  {
    if a != [] {
      assert (a + b)[0] == a[0];
      assert (a + b)[1..] == a[1..] + b;
      FetchEachConcat(g, a[1..], b, k);
    } else {
      assert a + b == b;
    }
  }

  /** A vertex is reached exactly when some identifier fetches it. */
  lemma {:induction false} FetchEachMembers(g: Gateway, ids: seq<string>, k: VertexKind, v: Vertex)
    ensures v in FetchEach(g, ids, k) <==> exists i :: 0 <= i < |ids| && g.fetchVertex(ids[i], k) == Some(v)
    decreases |ids|
  {
    if ids != [] {
      FetchEachMembers(g, ids[1..], k, v);
      if exists i :: 0 <= i < |ids| && g.fetchVertex(ids[i], k) == Some(v) {
        var i :| 0 <= i < |ids| && g.fetchVertex(ids[i], k) == Some(v);
        if i > 0 {
          assert g.fetchVertex(ids[1..][i - 1], k) == Some(v);
        }
      }
      if exists i :: 0 <= i < |ids[1..]| && g.fetchVertex(ids[1..][i], k) == Some(v) {
        var i :| 0 <= i < |ids[1..]| && g.fetchVertex(ids[1..][i], k) == Some(v);
        assert g.fetchVertex(ids[i + 1], k) == Some(v);
      }
    }
  }

  /** When no fetch fails, every identifier contributes its vertex, in order. */
  lemma {:induction false} FetchEachAllSucceed(g: Gateway, ids: seq<string>, k: VertexKind)
    requires forall i :: 0 <= i < |ids| ==> g.fetchVertex(ids[i], k).Some?
    ensures |FetchEach(g, ids, k)| == |ids|
    ensures forall i :: 0 <= i < |ids| ==> FetchEach(g, ids, k)[i] == g.fetchVertex(ids[i], k).value
    decreases |ids|
  {
    if ids != [] {
      assert forall i :: 0 <= i < |ids[1..]| ==> ids[1..][i] == ids[i + 1];
      FetchEachAllSucceed(g, ids[1..], k);
    }
  }

  /** When every fetch fails, the edge reaches nothing. */
  lemma {:induction false} FetchEachAllFail(g: Gateway, ids: seq<string>, k: VertexKind)
    requires forall i :: 0 <= i < |ids| ==> g.fetchVertex(ids[i], k).None?
    ensures FetchEach(g, ids, k) == []
    decreases |ids|
  {
    if ids != [] {
      assert forall i :: 0 <= i < |ids[1..]| ==> ids[1..][i] == ids[i + 1];
      FetchEachAllFail(g, ids[1..], k);
    }
  }

  /** A failing fetch in the middle is skipped: `[a, b, c]` with `b` failing
      reaches the vertices of `a` and `c`, in that order. */
  lemma FetchEachSkipsFailure(g: Gateway, a: string, b: string, c: string, k: VertexKind)
    requires g.fetchVertex(a, k).Some? && g.fetchVertex(b, k).None? && g.fetchVertex(c, k).Some?
    ensures FetchEach(g, [a, b, c], k) == [g.fetchVertex(a, k).value, g.fetchVertex(c, k).value]
  {
    FetchEachConcat(g, [a], [b, c], k);
    FetchEachConcat(g, [b], [c], k);
  }

  /** Against a gateway that decodes into the requested kind, every vertex
      reached is of that kind. */
  lemma FetchEachOfKind(g: Gateway, ids: seq<string>, k: VertexKind)
    requires WellTyped(g)
    ensures AllOfKind(FetchEach(g, ids, k), k)
  {
    forall i | 0 <= i < |FetchEach(g, ids, k)|
      ensures KindOf(FetchEach(g, ids, k)[i]) == k
    {
      var v := FetchEach(g, ids, k)[i];
      FetchEachMembers(g, ids, k, v);
    }
  }

  /** One optional identifier: nothing when it is absent or its fetch fails. */
  function FetchOne(g: Gateway, id: Option<string>, k: VertexKind): (r: seq<Vertex>)
    ensures |r| <= 1
    ensures r != [] <==> id.Some? && g.fetchVertex(id.value, k).Some?
    ensures r != [] ==> r[0] == g.fetchVertex(id.value, k).value
  {
    match id
    case None => []
    case Some(x) =>
      match g.fetchVertex(x, k)
      case Some(v) => [v]
      case None => []
  }

  /** One listing page: its whole contents, or nothing when the fetch fails. */
  function FetchPage(g: Gateway, url: string, k: VertexKind): (r: seq<Vertex>)
    ensures g.fetchVertices(url, k).Some? ==> r == g.fetchVertices(url, k).value
    ensures g.fetchVertices(url, k).None? ==> r == []
  {
    match g.fetchVertices(url, k)
    case Some(vs) => vs
    case None => []
  }

  // ---------------------------------------------------------------------------
  // Roles

  /** `roles.find_map(...)`: the identifier of the first role entry whose tag
      is `tag`. */
  function FirstRoleId(roles: seq<Role>, tag: string): (r: Option<string>)
    ensures r.None? <==> forall j :: 0 <= j < |roles| ==> roles[j].role != tag
    ensures r.Some? ==> exists i :: 0 <= i < |roles| && roles[i].role == tag && roles[i].id == r.value
                                    && forall j :: 0 <= j < i ==> roles[j].role != tag
    decreases |roles|
  {
    if roles == [] then None
    else if roles[0].role == tag then Some(roles[0].id)
    else
      var r := FirstRoleId(roles[1..], tag);
      assert forall j :: 1 <= j < |roles| ==> roles[j] == roles[1..][j - 1];
      if r.Some? then
        var i :| 0 <= i < |roles[1..]| && roles[1..][i].role == tag && roles[1..][i].id == r.value
                 && forall j :: 0 <= j < i ==> roles[1..][j].role != tag;
        assert roles[i + 1].role == tag && roles[i + 1].id == r.value;
        assert forall j :: 0 <= j < i + 1 ==> roles[j].role != tag;
        r
      else
        r
  }

  /** The role tag an entity of kind `k` is listed under: its lower-cased
      schema name. */
  function RoleTag(k: VertexKind): (r: string)
    ensures r == Lower(KindName(k))
  {
    match k
    case Institution => assert Lower("Institution") == "institution"; "institution"
    case Publisher => assert Lower("Publisher") == "publisher"; "publisher"
    case Funder => assert Lower("Funder") == "funder"; "funder"
    case Work => assert Lower("Work") == "work"; "work"
    case Author => assert Lower("Author") == "author"; "author"
    case Concept => assert Lower("Concept") == "concept"; "concept"
    case Source => assert Lower("Source") == "source"; "source"
  }

  // ---------------------------------------------------------------------------
  // The edge table

  datatype Edge =
    | WorkAuthors | WorkCitedBy | WorkConcepts | WorkFunders | WorkReferences | WorkRelated
    | AuthorInstitution | AuthorWorks
    | SourceHost | SourceLineage | SourceWorks
    | ConceptAncestors | ConceptRelated | ConceptWorks
    | InstitutionAssociated | InstitutionRepositories | InstitutionPublisher | InstitutionFunder
    | InstitutionWorks
    | PublisherLineage | PublisherInstitution | PublisherFunder | PublisherSources
    | FunderInstitution | FunderPublisher
  {
    /** The edges that go through the source vertex's role list. */
    predicate ViaRole()
    {
      InstitutionPublisher? || InstitutionFunder? || PublisherInstitution? || PublisherFunder?
      || FunderInstitution? || FunderPublisher?
    }
  }

  /** The kind of vertex an edge leaves from. */
  function EdgeOwner(e: Edge): VertexKind
  {
    match e
    case WorkAuthors | WorkCitedBy | WorkConcepts | WorkFunders | WorkReferences | WorkRelated => VertexKind.Work
    case AuthorInstitution | AuthorWorks => VertexKind.Author
    case SourceHost | SourceLineage | SourceWorks => VertexKind.Source
    case ConceptAncestors | ConceptRelated | ConceptWorks => VertexKind.Concept
    case InstitutionAssociated | InstitutionRepositories | InstitutionPublisher | InstitutionFunder
      | InstitutionWorks => VertexKind.Institution
    case PublisherLineage | PublisherInstitution | PublisherFunder | PublisherSources => VertexKind.Publisher
    case FunderInstitution | FunderPublisher => VertexKind.Funder
  }

  /** The kind of vertex an edge reaches. */
  function EdgeTargetKind(e: Edge): VertexKind
  {
    match e
    case WorkAuthors => VertexKind.Author
    case WorkCitedBy | WorkReferences | WorkRelated => VertexKind.Work
    case WorkConcepts => VertexKind.Concept
    case WorkFunders => VertexKind.Funder
    case AuthorInstitution => VertexKind.Institution
    case AuthorWorks | SourceWorks | ConceptWorks | InstitutionWorks => VertexKind.Work
    case SourceHost | SourceLineage => VertexKind.Institution
    case ConceptAncestors | ConceptRelated => VertexKind.Concept
    case InstitutionAssociated => VertexKind.Institution
    case InstitutionRepositories | PublisherSources => VertexKind.Source
    case InstitutionPublisher | FunderPublisher => VertexKind.Publisher
    case InstitutionFunder | PublisherFunder => VertexKind.Funder
    case PublisherLineage => VertexKind.Publisher
    case PublisherInstitution | FunderInstitution => VertexKind.Institution
  }

  /** The schema's name for an edge, within its owner type. */
  function EdgeName(e: Edge): string
  {
    match e
    case WorkAuthors => "Authors"
    case WorkCitedBy => "Cited_by"
    case WorkConcepts => "Concepts"
    case WorkFunders => "Funders"
    case WorkReferences => "References"
    case WorkRelated => "Related"
    case AuthorInstitution => "Institution"
    case AuthorWorks => "Works"
    case SourceHost => "Host"
    case SourceLineage => "Lineage"
    case SourceWorks => "Works"
    case ConceptAncestors => "Ancestors"
    case ConceptRelated => "Related"
    case ConceptWorks => "Works"
    case InstitutionAssociated => "Associated"
    case InstitutionRepositories => "Repositories"
    case InstitutionPublisher => "Publisher"
    case InstitutionFunder => "Funder"
    case InstitutionWorks => "Works"
    case PublisherLineage => "Lineage"
    case PublisherInstitution => "Institution"
    case PublisherFunder => "Funder"
    case PublisherSources => "Sources"
    case FunderInstitution => "Institution"
    case FunderPublisher => "Publisher"
  }

  /** The edge names of one owner type: the table only ever answers with an
      edge of the type it was asked about, carrying the name it was asked for. */
  function ParseEdgeOf(k: VertexKind, name: string): (r: Option<Edge>)
    ensures r.Some? ==> EdgeOwner(r.value) == k && EdgeName(r.value) == name
  {
    match k
    case Work =>
      (match name
       case "Authors" => Some(WorkAuthors)
       case "Cited_by" => Some(WorkCitedBy)
       case "Concepts" => Some(WorkConcepts)
       case "Funders" => Some(WorkFunders)
       case "References" => Some(WorkReferences)
       case "Related" => Some(WorkRelated)
       case _ => None)
    case Author =>
      (match name
       case "Institution" => Some(AuthorInstitution)
       case "Works" => Some(AuthorWorks)
       case _ => None)
    case Source =>
      (match name
       case "Host" => Some(SourceHost)
       case "Lineage" => Some(SourceLineage)
       case "Works" => Some(SourceWorks)
       case _ => None)
    case Concept =>
      (match name
       case "Ancestors" => Some(ConceptAncestors)
       case "Related" => Some(ConceptRelated)
       case "Works" => Some(ConceptWorks)
       case _ => None)
    case Institution =>
      (match name
       case "Associated" => Some(InstitutionAssociated)
       case "Repositories" => Some(InstitutionRepositories)
       case "Publisher" => Some(InstitutionPublisher)
       case "Funder" => Some(InstitutionFunder)
       case "Works" => Some(InstitutionWorks)
       case _ => None)
    case Publisher =>
      (match name
       case "Lineage" => Some(PublisherLineage)
       case "Institution" => Some(PublisherInstitution)
       case "Funder" => Some(PublisherFunder)
       case "Sources" => Some(PublisherSources)
       case _ => None)
    case Funder =>
      (match name
       case "Institution" => Some(FunderInstitution)
       case "Publisher" => Some(FunderPublisher)
       case _ => None)
  }

  /** Every edge is found under its owner's type name and its own name. */
  lemma EdgeNameRoundTrip(e: Edge)
    ensures ParseEdgeOf(EdgeOwner(e), EdgeName(e)) == Some(e)
  {
  }

  /** The edge selected for a type name and an edge name; an unknown pair panics
      before any row is pulled. */
  function ParseEdge(typeName: string, edgeName: string): (r: Fallible<Edge>)
    ensures KindNamed(typeName).None? ==>
      r == Panicked(Unreachable(typeName + " doesn't fall under a vertex type with edge connections"))
    ensures KindNamed(typeName).Some? ==>
      match ParseEdgeOf(KindNamed(typeName).value, edgeName)
      case Some(e) => r == Ok(e)
      case None => r == Panicked(Unreachable("resolve_neighbors " + typeName + " " + edgeName))
  {
    match KindNamed(typeName)
    case None => Panicked(Unreachable(typeName + " doesn't fall under a vertex type with edge connections"))
    case Some(k) =>
      match ParseEdgeOf(k, edgeName)
      case Some(e) => Ok(e)
      case None => Panicked(Unreachable("resolve_neighbors " + typeName + " " + edgeName))
  }

  /** The message of the `expect` that narrows the active vertex: the source
      reuses "vertex was not a work" for Author and Source edges and spells the
      Institution, Publisher and Funder messages inconsistently. Every message
      begins "vertex was not "; from Concept, Institution, Publisher and Funder
      edges it ends with the lower-cased name of the owner type (its role tag). */
  function ExpectMessage(e: Edge): (r: string)
    ensures |r| > 15 && r[..15] == "vertex was not "
    ensures EdgeOwner(e) in {VertexKind.Work, VertexKind.Author, VertexKind.Source} ==> r == "vertex was not a work"
    ensures EdgeOwner(e) !in {VertexKind.Work, VertexKind.Author, VertexKind.Source} ==>
      var n := RoleTag(EdgeOwner(e));
      |n| < |r| && r[|r| - |n|..] == n
  {
    match EdgeOwner(e)
    case Work | Author | Source => "vertex was not a work"
    case Concept => "vertex was not a " + RoleTag(VertexKind.Concept)
    case Institution =>
      (if e.ViaRole() then "vertex was not " else "vertex was not an ") + RoleTag(VertexKind.Institution)
    case Publisher =>
      (if e.ViaRole() then "vertex was not " else "vertex was not an ") + RoleTag(VertexKind.Publisher)
    case Funder => "vertex was not " + RoleTag(VertexKind.Funder)
  }

  // ---------------------------------------------------------------------------
  // Targets

  /** What an edge asks the gateway for, read off the source vertex. */
  datatype Target =
    | EachId(ids: seq<string>, kind: VertexKind)
    | OneId(id: Option<string>, kind: VertexKind)
    | Page(url: string, kind: VertexKind)

  /** How an edge reaches its vertices. */
  datatype Shape = IdList | SingleId | Listing

  function EdgeShape(e: Edge): Shape
  {
    match e
    case WorkCitedBy | AuthorWorks | SourceWorks | ConceptWorks | InstitutionWorks | PublisherSources => Listing
    case AuthorInstitution | SourceHost | InstitutionPublisher | InstitutionFunder
      | PublisherInstitution | PublisherFunder | FunderInstitution | FunderPublisher => SingleId
    case _ => IdList
  }

  function ShapeOf(t: Target): Shape
  {
    match t
    case EachId(_, _) => IdList
    case OneId(_, _) => SingleId
    case Page(_, _) => Listing
  }

  /** The `id` field of each element, in order. */
  function IdsOf<T>(xs: seq<T>, id: T -> string): (r: seq<string>)
    ensures |r| == |xs|
    ensures forall i :: 0 <= i < |xs| ==> r[i] == id(xs[i])
  {
    seq(|xs|, i requires 0 <= i < |xs| => id(xs[i]))
  }

  /** Target of an edge leaving from a Work. */
  function WorkTarget(e: Edge, w: Work): (r: Target)
    requires EdgeOwner(e) == VertexKind.Work
    ensures r.kind == EdgeTargetKind(e) && ShapeOf(r) == EdgeShape(e)
  {
    match e
    case WorkAuthors => EachId(IdsOf(w.authorships, (a: Authorship) => a.author.id), VertexKind.Author)
    case WorkCitedBy => Page(w.citedByApiUrl, VertexKind.Work)
    case WorkConcepts => EachId(IdsOf(w.concepts, (c: DehydratedConcept) => c.id), VertexKind.Concept)
    case WorkFunders => EachId(IdsOf(w.grants, (g: Grant) => g.funder), VertexKind.Funder)
    case WorkReferences => EachId(w.referencedWorks, VertexKind.Work)
    case WorkRelated => EachId(w.relatedWorks, VertexKind.Work)
  }

  /** Target of an edge leaving from an Author. */
  function AuthorTarget(e: Edge, a: Author): (r: Target)
    requires EdgeOwner(e) == VertexKind.Author
    ensures r.kind == EdgeTargetKind(e) && ShapeOf(r) == EdgeShape(e)
  {
    match e
    case AuthorInstitution =>
      OneId(a.lastKnownInstitution.AndThen((i: DehydratedInstitution) => Some(i.id)), VertexKind.Institution)
    case AuthorWorks => Page(a.worksApiUrl, VertexKind.Work)
  }

  /** Target of an edge leaving from a Source. */
  function SourceTarget(e: Edge, s: Source): (r: Target)
    requires EdgeOwner(e) == VertexKind.Source
    ensures r.kind == EdgeTargetKind(e) && ShapeOf(r) == EdgeShape(e)
  {
    match e
    case SourceHost => OneId(s.hostOrganization, VertexKind.Institution)
    case SourceLineage => EachId(s.hostOrganizationLineage, VertexKind.Institution)
    case SourceWorks => Page(s.worksApiUrl, VertexKind.Work)
  }

  /** Target of an edge leaving from a Concept. */
  function ConceptTarget(e: Edge, c: Concept): (r: Target)
    requires EdgeOwner(e) == VertexKind.Concept
    ensures r.kind == EdgeTargetKind(e) && ShapeOf(r) == EdgeShape(e)
  {
    match e
    case ConceptAncestors => EachId(IdsOf(c.ancestors, (x: DehydratedConcept) => x.id), VertexKind.Concept)
    case ConceptRelated => EachId(IdsOf(c.relatedConcepts, (x: DehydratedConcept) => x.id), VertexKind.Concept)
    case ConceptWorks => Page(c.worksApiUrl, VertexKind.Work)
  }

  /** Target of an edge leaving from an Institution. */
  function InstitutionTarget(e: Edge, i: Institution): (r: Target)
    requires EdgeOwner(e) == VertexKind.Institution
    ensures r.kind == EdgeTargetKind(e) && ShapeOf(r) == EdgeShape(e)
    ensures e.ViaRole() ==> r == OneId(FirstRoleId(i.roles, RoleTag(EdgeTargetKind(e))), EdgeTargetKind(e))
  {
    match e
    case InstitutionAssociated =>
      EachId(IdsOf(i.associatedInstitutions, (x: DehydratedInstitution) => x.id), VertexKind.Institution)
    case InstitutionRepositories => EachId(IdsOf(i.repositories, (x: DehydratedSource) => x.id), VertexKind.Source)
    case InstitutionPublisher => OneId(FirstRoleId(i.roles, "publisher"), VertexKind.Publisher)
    case InstitutionFunder => OneId(FirstRoleId(i.roles, "funder"), VertexKind.Funder)
    case InstitutionWorks => Page(i.worksApiUrl, VertexKind.Work)
  }

  /** Target of an edge leaving from a Publisher. */
  function PublisherTarget(e: Edge, p: Publisher): (r: Target)
    requires EdgeOwner(e) == VertexKind.Publisher
    ensures r.kind == EdgeTargetKind(e) && ShapeOf(r) == EdgeShape(e)
    ensures e.ViaRole() ==> r == OneId(FirstRoleId(p.roles, RoleTag(EdgeTargetKind(e))), EdgeTargetKind(e))
  {
    match e
    case PublisherLineage => EachId(p.lineage, VertexKind.Publisher)
    case PublisherInstitution => OneId(FirstRoleId(p.roles, "institution"), VertexKind.Institution)
    case PublisherFunder => OneId(FirstRoleId(p.roles, "funder"), VertexKind.Funder)
    case PublisherSources => Page(p.sourcesApiUrl, VertexKind.Source)
  }

  /** Target of an edge leaving from a Funder. */
  function FunderTarget(e: Edge, f: Funder): (r: Target)
    requires EdgeOwner(e) == VertexKind.Funder
    ensures r.kind == EdgeTargetKind(e) && ShapeOf(r) == EdgeShape(e)
    ensures e.ViaRole() ==> r == OneId(FirstRoleId(f.roles, RoleTag(EdgeTargetKind(e))), EdgeTargetKind(e))
  {
    match e
    case FunderInstitution => OneId(FirstRoleId(f.roles, "institution"), VertexKind.Institution)
    case FunderPublisher => OneId(FirstRoleId(f.roles, "publisher"), VertexKind.Publisher)
  }

  /** The target of edge `e` from vertex `v`. Narrowing `v` to the edge's owner
      type panics when it is another variant. */
  function EdgeTarget(e: Edge, v: Vertex): (r: Fallible<Target>)
    ensures r.Ok? <==> KindOf(v) == EdgeOwner(e)
    ensures r.Panicked? ==> r.panic == ExpectFailed(ExpectMessage(e))
    ensures r.Ok? ==> r.value.kind == EdgeTargetKind(e) && ShapeOf(r.value) == EdgeShape(e)
    ensures r.Ok? && e.ViaRole() ==>
      r.value == OneId(FirstRoleId(Roles(v).value, RoleTag(EdgeTargetKind(e))), EdgeTargetKind(e))
  {
    if KindOf(v) != EdgeOwner(e) then Panicked(ExpectFailed(ExpectMessage(e)))
    else
      match v
      case Work(w) => Ok(WorkTarget(e, w))
      case Author(a) => Ok(AuthorTarget(e, a))
      case Source(s) => Ok(SourceTarget(e, s))
      case Concept(c) => Ok(ConceptTarget(e, c))
      case Institution(i) => Ok(InstitutionTarget(e, i))
      case Publisher(p) => Ok(PublisherTarget(e, p))
      case Funder(f) => Ok(FunderTarget(e, f))
  }

  /** The vertices a target reaches: at most one per identifier of a list, at
      most one for a single identifier, and a listing page whole or not at all. */
  function Reach(g: Gateway, t: Target): (r: seq<Vertex>)
    ensures t.EachId? ==> |r| <= |t.ids|
    ensures t.OneId? ==> |r| <= 1 && (r != [] <==> t.id.Some? && g.fetchVertex(t.id.value, t.kind).Some?)
    ensures t.Page? ==> (r == [] && g.fetchVertices(t.url, t.kind).None?) || g.fetchVertices(t.url, t.kind) == Some(r)
  {
    match t
    case EachId(ids, k) => FetchEach(g, ids, k)
    case OneId(id, k) => FetchOne(g, id, k)
    case Page(url, k) => FetchPage(g, url, k)
  }

  /** Against a well-typed gateway a target reaches only vertices of its kind. */
  lemma ReachOfKind(g: Gateway, t: Target)
    requires WellTyped(g)
    ensures AllOfKind(Reach(g, t), t.kind)
  {
    if t.EachId? {
      FetchEachOfKind(g, t.ids, t.kind);
    }
  }

  // ---------------------------------------------------------------------------
  // Resolution over rows

  /** One row of `resolve_neighbors` for edge `e`: no neighbours without an
      active vertex, otherwise the neighbours of its target. */
  function NeighborRow(g: Gateway, e: Edge, ctx: Context): (r: Fallible<(Context, seq<Vertex>)>)
    ensures r.Ok? ==> r.value.0 == ctx
    ensures ctx.activeVertex.None? ==> r == Ok((ctx, []))
    ensures ctx.activeVertex.Some? ==> (r.Ok? <==> KindOf(ctx.activeVertex.value) == EdgeOwner(e))
    ensures ctx.activeVertex.Some? && r.Panicked? ==> r.panic == ExpectFailed(ExpectMessage(e))
  {
    match ctx.activeVertex
    case None => Ok((ctx, []))
    case Some(v) =>
      match EdgeTarget(e, v)
      case Panicked(p) => Panicked(p)
      case Ok(t) => Ok((ctx, Reach(g, t)))
  }

  /** The per-row step of `resolve_neighbors` for edge `e`. */
  function NeighborStep(g: Gateway, e: Edge): Context -> Fallible<(Context, seq<Vertex>)>
  {
    ctx => NeighborRow(g, e, ctx)
  }

  /** `resolve_neighbors`, drained. An unknown type or edge panics before any
      row is pulled; otherwise each row is passed through with its neighbours,
      and the stream stops at the first row whose active vertex is not of the
      edge's owner type. */
  function ResolveNeighbors(g: Gateway, contexts: seq<Context>, typeName: string, edgeName: string)
    : (r: Stream<(Context, seq<Vertex>)>)
    ensures ParseEdge(typeName, edgeName).Panicked? ==> r == Stream([], Some(ParseEdge(typeName, edgeName).panic))
    ensures |r.items| <= |contexts|
    ensures forall i :: 0 <= i < |r.items| ==> r.items[i].0 == contexts[i]
    ensures forall i :: 0 <= i < |r.items| && contexts[i].activeVertex.None? ==> r.items[i].1 == []
    ensures ParseEdge(typeName, edgeName).Ok? ==>
      (r.halt.None? <==> forall i :: 0 <= i < |contexts| && contexts[i].activeVertex.Some? ==>
                                    KindOf(contexts[i].activeVertex.value) == EdgeOwner(ParseEdge(typeName, edgeName).value))
    ensures ParseEdge(typeName, edgeName).Ok? && r.halt.Some? ==>
      r.halt.value == ExpectFailed(ExpectMessage(ParseEdge(typeName, edgeName).value))
  {
    match ParseEdge(typeName, edgeName)
    case Panicked(p) => Stream([], Some(p))
    case Ok(e) =>
      MapRowsComplete(contexts, NeighborStep(g, e));
      MapRows(contexts, NeighborStep(g, e))
  }

  /** Each produced row with an active vertex holds the vertices its target
      reaches. */
  lemma ResolveNeighborsReach(g: Gateway, contexts: seq<Context>, typeName: string, edgeName: string)
    requires ParseEdge(typeName, edgeName).Ok?
    ensures var e, r := ParseEdge(typeName, edgeName).value, ResolveNeighbors(g, contexts, typeName, edgeName);
      forall i :: 0 <= i < |r.items| && contexts[i].activeVertex.Some? ==>
        EdgeTarget(e, contexts[i].activeVertex.value).Ok?
        && r.items[i].1 == Reach(g, EdgeTarget(e, contexts[i].activeVertex.value).value)
  {
    var e := ParseEdge(typeName, edgeName).value;
    var r := ResolveNeighbors(g, contexts, typeName, edgeName);
    forall i | 0 <= i < |r.items| && contexts[i].activeVertex.Some?
      ensures EdgeTarget(e, contexts[i].activeVertex.value).Ok?
      ensures r.items[i].1 == Reach(g, EdgeTarget(e, contexts[i].activeVertex.value).value)
    {
      assert NeighborStep(g, e)(contexts[i]) == Ok(r.items[i]);
    }
  }

  /** Against a well-typed gateway every neighbour is of the edge's target kind. */
  lemma ResolveNeighborsOfKind(g: Gateway, contexts: seq<Context>, typeName: string, edgeName: string, i: nat)
    requires WellTyped(g)
    requires ParseEdge(typeName, edgeName).Ok?
    requires i < |ResolveNeighbors(g, contexts, typeName, edgeName).items|
    ensures AllOfKind(ResolveNeighbors(g, contexts, typeName, edgeName).items[i].1,
                      EdgeTargetKind(ParseEdge(typeName, edgeName).value))
  {
    if contexts[i].activeVertex.Some? {
      ResolveNeighborsReach(g, contexts, typeName, edgeName);
      var t := EdgeTarget(ParseEdge(typeName, edgeName).value, contexts[i].activeVertex.value);
      ReachOfKind(g, t.value);
    }
  }
}
