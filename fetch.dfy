/** The remote fetch gateway, seen only at its interface: fetching one vertex
    by URL and a listing page of vertices by URL. Transport, headers and JSON
    decoding are outside the model; both operations are parameters. */
module Fetch {
  import opened Wrappers
  import opened Vertices

  /** `fetch_vertex` and `fetch_vertices`; `None` stands for any `Err`. */
  datatype Gateway = Gateway(
    fetchVertex: (string, VertexKind) -> Option<Vertex>,
    fetchVertices: (string, VertexKind) -> Option<seq<Vertex>>)

  /** The decoding step wraps the body in the variant of the requested kind,
      so every successful fetch answers with a vertex of that kind. */
  ghost predicate WellTyped(g: Gateway)
  {
    && (forall url, k :: g.fetchVertex(url, k).Some? ==> KindOf(g.fetchVertex(url, k).value) == k)
    && (forall url, k, i :: g.fetchVertices(url, k).Some? && 0 <= i < |g.fetchVertices(url, k).value| ==>
          KindOf(g.fetchVertices(url, k).value[i]) == k)
  }

  /** All vertices of `vs` are of kind `k`. */
  ghost predicate AllOfKind(vs: seq<Vertex>, k: VertexKind)
  {
    forall i :: 0 <= i < |vs| ==> KindOf(vs[i]) == k
  }
}
