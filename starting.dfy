/** Starting vertices (`resolve_starting_vertices`, `search_id`, `random`):
    the entry points of a query, each yielding at most one vertex. */
module Starting {
  import opened Wrappers
  import opened Vertices
  import opened Fetch
  import opened Neighbors
  import opened Properties
  import opened Ascii

  /** The collection segment of the service's URLs for a kind: the lower-cased
      schema name with an "s". */
  function PluralName(k: VertexKind): (r: string)
    ensures r == Lower(KindName(k)) + "s"
  {
    match k
    case Work => assert Lower("Work") == "work"; "works"
    case Author => assert Lower("Author") == "author"; "authors"
    case Source => assert Lower("Source") == "source"; "sources"
    case Concept => assert Lower("Concept") == "concept"; "concepts"
    case Institution => assert Lower("Institution") == "institution"; "institutions"
    case Publisher => assert Lower("Publisher") == "publisher"; "publishers"
    case Funder => assert Lower("Funder") == "funder"; "funders"
  }

  const ApiBase: string := "https://api.openalex.org/"

  /** The random-entity endpoint of a kind. */
  function RandomUrl(k: VertexKind): (u: string)
    ensures u == ApiBase + Lower(KindName(k)) + "s/random"
  {
    ApiBase + PluralName(k) + "/random"
  }

  /** Distinct kinds have distinct random endpoints. */
  lemma RandomUrlInjective(k1: VertexKind, k2: VertexKind)
    ensures RandomUrl(k1) == RandomUrl(k2) <==> k1 == k2
  {
    if RandomUrl(k1) == RandomUrl(k2) {
      var n := |ApiBase|;
      assert RandomUrl(k1)[n] == PluralName(k1)[0];
      assert RandomUrl(k2)[n] == PluralName(k2)[0];
      match k1
      case Work =>
      case Author =>
      case Source =>
      case Concept =>
      case Institution =>
      case Publisher =>
      case Funder =>
    }
  }

  /** `search_id`: the vertex at `url`, or nothing when the fetch fails; an
      unknown kind name panics. */
  function SearchId(g: Gateway, url: string, kindName: string): (r: Fallible<seq<Vertex>>)
    ensures KindNamed(kindName).None? ==> r == Panicked(Unreachable("Not a valid vertex kind"))
    ensures KindNamed(kindName).Some? ==> r == Ok(FetchOne(g, Some(url), KindNamed(kindName).value))
  {
    match KindNamed(kindName)
    case None => Panicked(Unreachable("Not a valid vertex kind"))
    case Some(k) => Ok(FetchOne(g, Some(url), k))
  }

  /** `random`: the vertex the random endpoint of the kind answers with. */
  function Random(g: Gateway, kindName: string): (r: Fallible<seq<Vertex>>)
    ensures KindNamed(kindName).None? ==> r == Panicked(Unreachable("Not a valid vertex kind"))
    ensures KindNamed(kindName).Some? ==>
      r == Ok(FetchOne(g, Some(RandomUrl(KindNamed(kindName).value)), KindNamed(kindName).value))
  {
    match KindNamed(kindName)
    case None => Panicked(Unreachable("Not a valid vertex kind"))
    case Some(k) => Ok(FetchOne(g, Some(RandomUrl(k)), k))
  }

  /** `parameters.get(name).and_then(as_str)`. */
  function StringParameter(params: map<string, FieldValue>, name: string): (r: Option<string>)
    ensures r.Some? <==> name in params && params[name].Str?
    ensures r.Some? ==> r.value == params[name].s
  {
    if name in params && params[name].Str? then Some(params[name].s) else None
  }

  /** `resolve_starting_vertices`. The id search needs a string `id`
      parameter and panics without one; any other entry point is unhandled. */
  function ResolveStartingVertices(g: Gateway, edgeName: string, params: map<string, FieldValue>)
    : (r: Fallible<seq<Vertex>>)
    ensures edgeName == "OpenAlexIDSearchWork" ==>
      match StringParameter(params, "id")
      case None => r == Panicked(UnwrapNone)
      case Some(id) => r == Ok(FetchOne(g, Some(id), VertexKind.Work))
    ensures edgeName == "OpenAlexRandomWork" ==> r == Ok(FetchOne(g, Some(RandomUrl(VertexKind.Work)), VertexKind.Work))
    ensures edgeName != "OpenAlexIDSearchWork" && edgeName != "OpenAlexRandomWork" ==>
      r == Panicked(Unreachable("todo"))
  {
    match edgeName
    case "OpenAlexIDSearchWork" =>
      (match Unwrap(StringParameter(params, "id"))
       case Panicked(p) => Panicked(p)
       case Ok(id) => SearchId(g, id, "Work"))
    case "OpenAlexRandomWork" => Random(g, "Work")
    case _ => Panicked(Unreachable("todo"))
  }

  /** An entry point yields at most one vertex, and against a well-typed
      gateway that vertex is a Work. */
  lemma StartingVerticesAreWorks(g: Gateway, edgeName: string, params: map<string, FieldValue>)
    requires WellTyped(g)
    ensures var r := ResolveStartingVertices(g, edgeName, params);
      r.Ok? ==> |r.value| <= 1 && AllOfKind(r.value, VertexKind.Work)
  {
  }
}
