/** The vertex union of the OpenAlex schema: seven entity records, the closed
    union over them, its type name and its narrowing accessors. Record fields
    are typed the way the adapter reads them: a sub-record the adapter opens
    with `and_then`, and each field inside it, is an `Option`. */
module Vertices {
  import opened Wrappers

  /** An IEEE double, kept opaque: only whether one is present is modelled. */
  datatype Float = Float(bits: int)

  datatype YearCount = YearCount(year: nat, citedByCount: nat)

  /** The external-identifier bundle of the common header. */
  datatype Ids = Ids(
    doi: Option<string>,
    mag: Option<string>,
    openalex: Option<string>,
    pmid: Option<string>,
    pmcid: Option<string>)

  /** Fields shared by every OpenAlex entity. */
  datatype OpenAlexObject = OpenAlexObject(
    citedByCount: nat,
    countsByYear: seq<YearCount>,
    createdDate: string,
    displayName: string,
    id: string,
    ids: Ids,
    updatedDate: string)

  datatype SummaryStats = SummaryStats(
    twoYearMeanCitedness: Option<Float>,
    hIndex: Option<nat>,
    i10Index: Option<nat>)

  // Dehydrated references: the partial stand-ins embedded in other records.

  datatype DehydratedAuthor = DehydratedAuthor(id: string, displayName: string, orcid: string)

  datatype DehydratedInstitution = DehydratedInstitution(
    id: string, displayName: string, ror: string, countryCode: string, ttype: string)

  datatype DehydratedConcept = DehydratedConcept(
    id: string, wikidata: string, displayName: string, level: nat, score: Float)

  datatype DehydratedSource = DehydratedSource(
    id: string, displayName: string, issnL: string, issn: seq<string>,
    hostOrganization: string, ttype: string)

  // Work

  datatype Authorship = Authorship(
    authorPosition: string, author: DehydratedAuthor, institutions: seq<DehydratedInstitution>)

  /** An article-processing charge (`apc_list` and `apc_paid` of a work). */
  datatype Payment = Payment(
    value: Option<nat>, currency: Option<string>, provenance: Option<string>, valueUsd: Option<nat>)

  datatype Location = Location(
    isOa: Option<bool>, landingPageUrl: Option<string>, license: Option<string>,
    pdfUrl: Option<string>, version: Option<string>)

  datatype Biblio = Biblio(
    volume: Option<string>, issue: Option<string>, firstPage: Option<string>, lastPage: Option<string>)

  datatype Grant = Grant(funder: string, funderDisplayName: string, awardId: string)

  datatype OpenAccess = OpenAccess(
    isOa: Option<bool>, oaStatus: Option<string>, oaUrl: Option<string>,
    anyRepositoryHasFulltext: Option<bool>)

  datatype Work = Work(
    obj: OpenAlexObject,
    abstractInvertedIndex: string,
    authorships: seq<Authorship>,
    apcList: Option<Payment>,
    apcPaid: Option<Payment>,
    bestOaLocation: Option<Location>,
    biblio: Option<Biblio>,
    citedByApiUrl: string,
    concepts: seq<DehydratedConcept>,
    correspondingAuthorIds: seq<string>,
    correspondingInstitutionIds: seq<string>,
    doi: string,
    grants: seq<Grant>,
    isParatext: bool,
    isRetracted: bool,
    language: string,
    ngramsUrl: string,
    openAccess: Option<OpenAccess>,
    publicationDate: string,
    publicationYear: nat,
    referencedWorks: seq<string>,
    relatedWorks: seq<string>,
    title: string,
    ttype: string,
    isOa: bool,
    license: string,
    url: string,
    version: string)

  // Author

  datatype Author = Author(
    obj: OpenAlexObject,
    displayNameAlternatives: seq<string>,
    lastKnownInstitution: Option<DehydratedInstitution>,
    orcid: string,
    summaryStats: Option<SummaryStats>,
    worksApiUrl: string,
    worksCount: nat)

  // Concept

  datatype Concept = Concept(
    ancestors: seq<DehydratedConcept>,
    obj: OpenAlexObject,
    description: string,
    imageThumbnailUrl: string,
    imageUrl: string,
    level: nat,
    relatedConcepts: seq<DehydratedConcept>,
    summaryStats: Option<SummaryStats>,
    wikidata: string,
    worksApiUrl: string,
    worksCount: nat)

  // Source

  datatype Price = Price(price: nat, currency: string)

  datatype Society = Society(url: string, organization: string)

  datatype Source = Source(
    obj: OpenAlexObject,
    abreviatedTitle: string,
    alternativeTitles: seq<string>,
    apcPayment: seq<Price>,
    apcUsd: nat,
    countryCode: string,
    homepageUrl: string,
    hostOrganization: Option<string>,
    hostOrganizationLineage: seq<string>,
    hostOrganizationName: string,
    isInDoaj: bool,
    isOa: bool,
    issn: seq<string>,
    issnL: string,
    societies: seq<Society>,
    summaryStats: Option<SummaryStats>,
    ttype: string,
    worksApiUrl: string,
    worksCount: nat)

  // Institution, Publisher, Funder: the three kinds that carry a role list.

  /** One entry of a role list: this entity also acts as `role` under identifier `id`. */
  datatype Role = Role(role: string, id: string, worksCount: nat)

  datatype Geo = Geo(
    city: Option<string>, geonamesCityId: Option<string>, region: Option<string>,
    countryCode: Option<string>, country: Option<string>,
    latitude: Option<int>, longitude: Option<int>)

  datatype Institution = Institution(
    obj: OpenAlexObject,
    associatedInstitutions: seq<DehydratedInstitution>,
    displayNameAlternatives: seq<string>,
    countryCode: string,
    geo: Option<Geo>,
    homepageUrl: string,
    repositories: seq<DehydratedSource>,
    roles: seq<Role>,
    ror: string,
    summaryStats: Option<SummaryStats>,
    ttype: string,
    worksApiUrl: string,
    worksCount: nat)

  datatype Publisher = Publisher(
    obj: OpenAlexObject,
    alternativeTitles: seq<string>,
    countryCodes: seq<string>,
    hierarchyLevel: nat,
    imageThumbnailUrl: string,
    imageUrl: string,
    lineage: seq<string>,
    parentPublisher: string,
    roles: seq<Role>,
    sourcesApiUrl: string,
    summaryStats: Option<SummaryStats>,
    worksCount: nat)

  datatype Funder = Funder(
    obj: OpenAlexObject,
    alternativeTitles: seq<string>,
    countryCode: string,
    description: string,
    grantsCount: nat,
    homepageUrl: string,
    imageThumbnailUrl: string,
    imageUrl: string,
    roles: seq<Role>,
    summaryStats: Option<SummaryStats>,
    worksCount: nat)

  /** The closed vertex union. */
  datatype Vertex =
    | Work(work: Work)
    | Author(author: Author)
    | Concept(concept: Concept)
    | Source(source: Source)
    | Institution(institution: Institution)
    | Publisher(publisher: Publisher)
    | Funder(funder: Funder)

  /** The kind requested from the remote service for a fetch. */
  datatype VertexKind = Work | Author | Concept | Source | Institution | Publisher | Funder

  const AllKinds: set<VertexKind> :=
    {VertexKind.Work, VertexKind.Author, VertexKind.Concept, VertexKind.Source,
     VertexKind.Institution, VertexKind.Publisher, VertexKind.Funder}

  /** The seven type names of the schema. */
  const TypeNames: set<string> :=
    {"Work", "Author", "Concept", "Source", "Institution", "Publisher", "Funder"}

  /** The schema name of a kind. */
  function KindName(k: VertexKind): (r: string)
    ensures r in TypeNames
  {
    match k
    case Work => "Work"
    case Author => "Author"
    case Concept => "Concept"
    case Source => "Source"
    case Institution => "Institution"
    case Publisher => "Publisher"
    case Funder => "Funder"
  }

  /** The kind whose schema name is `name`, if any. */
  function KindNamed(name: string): (r: Option<VertexKind>)
    ensures r.Some? <==> name in TypeNames
    ensures r.Some? ==> KindName(r.value) == name
  {
    match name
    case "Work" => Some(VertexKind.Work)
    case "Author" => Some(VertexKind.Author)
    case "Concept" => Some(VertexKind.Concept)
    case "Source" => Some(VertexKind.Source)
    case "Institution" => Some(VertexKind.Institution)
    case "Publisher" => Some(VertexKind.Publisher)
    case "Funder" => Some(VertexKind.Funder)
    case _ => None
  }

  /** Distinct kinds have distinct names, so the name table can be read back. */
  lemma KindNameRoundTrip(k: VertexKind)
    ensures KindNamed(KindName(k)) == Some(k)
  {
  }

  /** The variant a vertex is. */
  function KindOf(v: Vertex): (k: VertexKind)
    ensures k == VertexKind.Work <==> v.Work?
    ensures k == VertexKind.Author <==> v.Author?
    ensures k == VertexKind.Concept <==> v.Concept?
    ensures k == VertexKind.Source <==> v.Source?
    ensures k == VertexKind.Institution <==> v.Institution?
    ensures k == VertexKind.Publisher <==> v.Publisher?
    ensures k == VertexKind.Funder <==> v.Funder?
  {
    match v
    case Work(_) => VertexKind.Work
    case Author(_) => VertexKind.Author
    case Concept(_) => VertexKind.Concept
    case Source(_) => VertexKind.Source
    case Institution(_) => VertexKind.Institution
    case Publisher(_) => VertexKind.Publisher
    case Funder(_) => VertexKind.Funder
  }

  /** `Vertex::typename`: the variant's schema name, one of seven fixed strings. */
  function Typename(v: Vertex): (r: string)
    ensures r in TypeNames
    ensures r == KindName(KindOf(v))
    ensures KindNamed(r) == Some(KindOf(v))
  {
    match v
    case Work(_) => "Work"
    case Author(_) => "Author"
    case Concept(_) => "Concept"
    case Source(_) => "Source"
    case Institution(_) => "Institution"
    case Publisher(_) => "Publisher"
    case Funder(_) => "Funder"
  }

  /** Two vertices have the same type name exactly when they are the same variant. */
  lemma TypenameDistinguishesVariants(v1: Vertex, v2: Vertex)
    ensures Typename(v1) == Typename(v2) <==> KindOf(v1) == KindOf(v2)
  {
    KindNameRoundTrip(KindOf(v1));
    KindNameRoundTrip(KindOf(v2));
  }

  // The narrowing accessors: `Some` of the wrapped record, unchanged, exactly
  // for the matching variant.

  function AsWork(v: Vertex): (r: Option<Work>)
    ensures r.Some? <==> v.Work?
    ensures r.Some? ==> v == Vertex.Work(r.value)
  {
    match v
    case Work(w) => Some(w)
    case _ => None
  }

  function AsAuthor(v: Vertex): (r: Option<Author>)
    ensures r.Some? <==> v.Author?
    ensures r.Some? ==> v == Vertex.Author(r.value)
  {
    match v
    case Author(a) => Some(a)
    case _ => None
  }

  function AsConcept(v: Vertex): (r: Option<Concept>)
    ensures r.Some? <==> v.Concept?
    ensures r.Some? ==> v == Vertex.Concept(r.value)
  {
    match v
    case Concept(c) => Some(c)
    case _ => None
  }

  function AsSource(v: Vertex): (r: Option<Source>)
    ensures r.Some? <==> v.Source?
    ensures r.Some? ==> v == Vertex.Source(r.value)
  {
    match v
    case Source(s) => Some(s)
    case _ => None
  }

  function AsInstitution(v: Vertex): (r: Option<Institution>)
    ensures r.Some? <==> v.Institution?
    ensures r.Some? ==> v == Vertex.Institution(r.value)
  {
    match v
    case Institution(i) => Some(i)
    case _ => None
  }

  function AsPublisher(v: Vertex): (r: Option<Publisher>)
    ensures r.Some? <==> v.Publisher?
    ensures r.Some? ==> v == Vertex.Publisher(r.value)
  {
    match v
    case Publisher(p) => Some(p)
    case _ => None
  }

  function AsFunder(v: Vertex): (r: Option<Funder>)
    ensures r.Some? <==> v.Funder?
    ensures r.Some? ==> v == Vertex.Funder(r.value)
  {
    match v
    case Funder(f) => Some(f)
    case _ => None
  }

  /** How many of the seven accessors answer `Some` for `v`. */
  function AccessorHits(v: Vertex): nat
  {
    (if AsWork(v).Some? then 1 else 0)
    + (if AsAuthor(v).Some? then 1 else 0)
    + (if AsConcept(v).Some? then 1 else 0)
    + (if AsSource(v).Some? then 1 else 0)
    + (if AsInstitution(v).Some? then 1 else 0)
    + (if AsPublisher(v).Some? then 1 else 0)
    + (if AsFunder(v).Some? then 1 else 0)
  }

  /** Every vertex narrows to exactly one record type. */
  lemma ExactlyOneAccessor(v: Vertex)
    ensures AccessorHits(v) == 1
  {
  }

  /** Each accessor agrees with `typename`. */
  lemma AccessorsAgreeWithTypename(v: Vertex)
    ensures Typename(v) == "Work" <==> AsWork(v).Some?
    ensures Typename(v) == "Author" <==> AsAuthor(v).Some?
    ensures Typename(v) == "Concept" <==> AsConcept(v).Some?
    ensures Typename(v) == "Source" <==> AsSource(v).Some?
    ensures Typename(v) == "Institution" <==> AsInstitution(v).Some?
    ensures Typename(v) == "Publisher" <==> AsPublisher(v).Some?
    ensures Typename(v) == "Funder" <==> AsFunder(v).Some?
  {
  }

  /** The role list of a vertex: only Institution, Publisher and Funder have one. */
  function Roles(v: Vertex): (r: Option<seq<Role>>)
    ensures r.Some? <==> v.Institution? || v.Publisher? || v.Funder?
    ensures v.Institution? ==> r == Some(v.institution.roles)
    ensures v.Publisher? ==> r == Some(v.publisher.roles)
    ensures v.Funder? ==> r == Some(v.funder.roles)
  {
    match v
    case Institution(i) => Some(i.roles)
    case Publisher(p) => Some(p.roles)
    case Funder(f) => Some(f.roles)
    case _ => None
  }
}
