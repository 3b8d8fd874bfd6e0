/** Property resolution: the seven per-kind field tables (`get_*_property`),
    `property_mapper` and `resolve_property`. Each table is modelled in two
    steps: the field name is looked up in the kind's closed name table, giving
    a field of that kind, and the field's value is then read from the record. */
module Properties {
  import opened Wrappers
  import opened Vertices
  import opened Rows
  import opened Decimal

  /** The subset of the interpreter's field values this adapter produces. */
  datatype FieldValue =
    | Null
    | Str(s: string)
    | Int(i: int)
    | Bool(b: bool)
    | Float64(f: Float)
    | StrList(items: seq<string>)

  /** The declared shape of a field: the type of its non-null values and
      whether it may be Null (it is read from an upstream `Option`). */
  datatype FieldType = StringType | IntType | BoolType | FloatType | StringListType
  datatype FieldSchema = FieldSchema(ty: FieldType, nullable: bool)

  predicate Conforms(v: FieldValue, s: FieldSchema)
  {
    match v
    case Null => s.nullable
    case Str(_) => s.ty == StringType
    case Int(_) => s.ty == IntType
    case Bool(_) => s.ty == BoolType
    case Float64(_) => s.ty == FloatType
    case StrList(_) => s.ty == StringListType
  }

  // `Option<T>::into()`: absence becomes Null, presence the wrapped value.

  function StrOrNull(o: Option<string>): (r: FieldValue)
    ensures r.Null? <==> o.None?
    ensures o.Some? ==> r == Str(o.value)
  {
    match o
    case Some(s) => Str(s)
    case None => Null
  }

  function IntOrNull(o: Option<int>): (r: FieldValue)
    ensures r.Null? <==> o.None?
    ensures o.Some? ==> r == Int(o.value)
  {
    match o
    case Some(n) => Int(n)
    case None => Null
  }

  function BoolOrNull(o: Option<bool>): (r: FieldValue)
    ensures r.Null? <==> o.None?
    ensures o.Some? ==> r == Bool(o.value)
  {
    match o
    case Some(b) => Bool(b)
    case None => Null
  }

  function FloatOrNull(o: Option<Float>): (r: FieldValue)
    ensures r.Null? <==> o.None?
    ensures o.Some? ==> r == Float64(o.value)
  {
    match o
    case Some(x) => Float64(x)
    case None => Null
  }

  // ---------------------------------------------------------------------------
  // The common header, shared by the seven tables.

  datatype HeaderField =
    | CitedByCount | CreatedDate | DisplayName | Id
    | IdsDoi | IdsMag | IdsOpenalex | IdsPmid | IdsPmcid
    | UpdatedDate
  {
    predicate IsIds() { IdsDoi? || IdsMag? || IdsOpenalex? || IdsPmid? || IdsPmcid? }
  }

  function ParseHeaderField(name: string): (r: Option<HeaderField>)
    ensures r.Some? ==> HeaderFieldName(r.value) == name
  {
    match name
    case "cited_by_count" => Some(CitedByCount)
    case "created_date" => Some(CreatedDate)
    case "display_name" => Some(DisplayName)
    case "id" => Some(Id)
    case "ids_doi" => Some(IdsDoi)
    case "ids_mag" => Some(IdsMag)
    case "ids_openalex" => Some(IdsOpenalex)
    case "ids_pmid" => Some(IdsPmid)
    case "ids_pmcid" => Some(IdsPmcid)
    case "updated_date" => Some(UpdatedDate)
    case _ => None
  }

  /** The name of a header field, the same in every table. */
  function HeaderFieldName(h: HeaderField): string
  {
    match h
    case CitedByCount => "cited_by_count"
    case CreatedDate => "created_date"
    case DisplayName => "display_name"
    case Id => "id"
    case IdsDoi => "ids_doi"
    case IdsMag => "ids_mag"
    case IdsOpenalex => "ids_openalex"
    case IdsPmid => "ids_pmid"
    case IdsPmcid => "ids_pmcid"
    case UpdatedDate => "updated_date"
  }

  /** The header names are distinct, and each resolves to its own field. */
  lemma HeaderFieldNameRoundTrip(h: HeaderField)
    ensures ParseHeaderField(HeaderFieldName(h)) == Some(h)
  {
  }

  function IdsMember(ids: Ids, h: HeaderField): Option<string>
    requires h.IsIds()
  {
    match h
    case IdsDoi => ids.doi
    case IdsMag => ids.mag
    case IdsOpenalex => ids.openalex
    case IdsPmid => ids.pmid
    case IdsPmcid => ids.pmcid
  }

  /** How a table treats an identifier missing from the bundle: Work, Author and
      Institution pass the `Option` on, giving Null; Source, Concept, Publisher
      and Funder `unwrap` it, which panics. */
  datatype IdsPolicy = NullWhenAbsent | UnwrapIds

  function HeaderSchema(h: HeaderField, policy: IdsPolicy): FieldSchema
  {
    if h.CitedByCount? then FieldSchema(IntType, false)
    else FieldSchema(StringType, h.IsIds() && policy == NullWhenAbsent)
  }

  /** A header field. Only an identifier can panic, and only under `UnwrapIds`
      when it is absent. */
  function HeaderValue(o: OpenAlexObject, h: HeaderField, policy: IdsPolicy): (r: Fallible<FieldValue>)
    ensures r.Panicked? <==> h.IsIds() && policy == UnwrapIds && IdsMember(o.ids, h).None?
    ensures r.Panicked? ==> r.panic == UnwrapNone
    ensures r.Ok? ==> Conforms(r.value, HeaderSchema(h, policy))
    ensures h.IsIds() && r.Ok? ==> r.value == StrOrNull(IdsMember(o.ids, h))
  {
    match h
    case CitedByCount => Ok(Int(o.citedByCount))
    case CreatedDate => Ok(Str(o.createdDate))
    case DisplayName => Ok(Str(o.displayName))
    case Id => Ok(Str(o.id))
    case UpdatedDate => Ok(Str(o.updatedDate))
    case _ =>
      match policy
      case NullWhenAbsent => Ok(StrOrNull(IdsMember(o.ids, h)))
      case UnwrapIds =>
        match Unwrap(IdsMember(o.ids, h))
        case Ok(id) => Ok(Str(id))
        case Panicked(p) => Panicked(p)
  }

  // ---------------------------------------------------------------------------
  // Summary statistics, in every table but Work's.

  datatype SummaryField = MeanCiteness | HIndex | I10Index

  function ParseSummaryField(name: string): (r: Option<SummaryField>)
    ensures r.Some? ==> SummaryFieldName(r.value) == name
  {
    match name
    case "summary_stats_mean_citeness" => Some(MeanCiteness)
    case "summary_stats_h_index" => Some(HIndex)
    case "summary_stats_i10_index" => Some(I10Index)
    case _ => None
  }

  function SummaryFieldName(f: SummaryField): string
  {
    match f
    case MeanCiteness => "summary_stats_mean_citeness"
    case HIndex => "summary_stats_h_index"
    case I10Index => "summary_stats_i10_index"
  }

  lemma SummaryFieldNameRoundTrip(f: SummaryField)
    ensures ParseSummaryField(SummaryFieldName(f)) == Some(f)
  {
  }

  function SummarySchema(f: SummaryField): FieldSchema
  {
    FieldSchema(if f.MeanCiteness? then FloatType else IntType, true)
  }

  /** A summary statistic; Null whenever the statistics record is absent. */
  function SummaryValue(stats: Option<SummaryStats>, f: SummaryField): (r: FieldValue)
    ensures stats.None? ==> r == Null
    ensures Conforms(r, SummarySchema(f))
  {
    match f
    case MeanCiteness => FloatOrNull(stats.AndThen((s: SummaryStats) => s.twoYearMeanCitedness))
    case HIndex => IntOrNull(stats.AndThen((s: SummaryStats) => s.hIndex))
    case I10Index => IntOrNull(stats.AndThen((s: SummaryStats) => s.i10Index))
  }

  // ---------------------------------------------------------------------------
  // Display templates for Source's structured lists.

  /** One `apc_payment` entry: the price's decimal numeral, " - ", the currency.
      The template loses nothing: price and currency can be read back. */
  function ApcEntry(p: Price): (s: string)
    ensures ParseApcEntry(s) == Some(p)
  {
    var d := ToDecimal(p.price);
    var s := d + " - " + p.currency;
    assert s == d + (" - " + p.currency);
    DigitPrefixOfConcat(d, " - " + p.currency);
    assert s[..|d|] == d;
    assert s[|d|..|d| + 3] == " - ";
    assert s[|d| + 3..] == p.currency;
    ParseToDecimal(p.price);
    s
  }

  /** The `apc_payment` list: one entry per price, in upstream order. */
  function ApcEntries(prices: seq<Price>): (r: seq<string>)
    ensures |r| == |prices|
    ensures forall i :: 0 <= i < |prices| ==> r[i] == ApcEntry(prices[i])
    decreases |prices|
  {
    if prices == [] then [] else [ApcEntry(prices[0])] + ApcEntries(prices[1..])
  }

  /** Splits an `apc_payment` entry back into its price and currency. */
  function ParseApcEntry(s: string): Option<Price>
  {
    var k := DigitPrefixLength(s);
    if 0 < k && k + 3 <= |s| && s[k..k + 3] == " - " then
      Some(Price(ParseDecimal(s[..k]), s[k + 3..]))
    else
      None
  }

  /** The whole `apc_payment` list reads back, entry by entry, in order. */
  lemma ApcEntriesRoundTrip(prices: seq<Price>)
    ensures forall i :: 0 <= i < |prices| ==> ParseApcEntry(ApcEntries(prices)[i]) == Some(prices[i])
  {
    forall i | 0 <= i < |prices|
      ensures ParseApcEntry(ApcEntries(prices)[i]) == Some(prices[i])
    {
      assert ApcEntries(prices)[i] == ApcEntry(prices[i]);
    }
  }

  /** One `societies` entry: the society's URL, " - ", its organization. */
  function SocietyEntry(s: Society): (r: string)
    ensures |r| == |s.url| + 3 + |s.organization|
    ensures r[..|s.url|] == s.url && r[|s.url|..|s.url| + 3] == " - " && r[|s.url| + 3..] == s.organization
  {
    s.url + " - " + s.organization
  }

  /** The `societies` list: one entry per society, in upstream order. */
  function SocietyEntries(societies: seq<Society>): (r: seq<string>)
    ensures |r| == |societies|
    ensures forall i :: 0 <= i < |societies| ==> r[i] == SocietyEntry(societies[i])
    decreases |societies|
  {
    if societies == [] then [] else [SocietyEntry(societies[0])] + SocietyEntries(societies[1..])
  }

  // ---------------------------------------------------------------------------
  // Work

  datatype PaymentField = Value | Currency | Provenance | ValueUsd
  datatype LocationField = IsOa | LandingPageUrl | License | PdfUrl | Version
  datatype BiblioField = Volume | Issue | FirstPage | LastPage
  datatype OpenAccessField = IsOa | OaStatus | OaUrl | Fulltext

  datatype WorkField =
    | Header(h: HeaderField)
    | AbstractText
    | ApcList(p: PaymentField)
    | ApcPayment(p: PaymentField)
    | BestOaLocation(l: LocationField)
    | BiblioOf(b: BiblioField)
    | Doi | IsParatext | IsRetracted | Language
    | OpenAccessOf(o: OpenAccessField)
    | PublicationDate | PublicationYear | ReferencedWorks | RelatedWorks
    | Title | Ttype | IsOa | License

  /** The name under which the Work table reads each of its fields. */
  function WorkFieldName(f: WorkField): string
  {
    match f
    case Header(h) => HeaderFieldName(h)
    case AbstractText => "abstract_text"
    case ApcList(Value) => "apc_list_value"
    case ApcList(Currency) => "apc_list_currency"
    case ApcList(Provenance) => "apc_list_provenance"
    case ApcList(ValueUsd) => "apc_list_value_usd"
    case ApcPayment(Value) => "apc_payment_value"
    case ApcPayment(Currency) => "apc_payment_currency"
    case ApcPayment(Provenance) => "apc_payment_provenance"
    case ApcPayment(ValueUsd) => "apc_payment_value_usd"
    case BestOaLocation(IsOa) => "best_oa_location_is_oa"
    case BestOaLocation(LandingPageUrl) => "best_oa_location_landing_page_url"
    case BestOaLocation(License) => "best_oa_location_license"
    case BestOaLocation(PdfUrl) => "best_oa_location_pdf_url"
    case BestOaLocation(Version) => "best_oa_location_version"
    case BiblioOf(Volume) => "biblio_volume"
    case BiblioOf(Issue) => "biblio_issue"
    case BiblioOf(FirstPage) => "biblio_first_page"
    case BiblioOf(LastPage) => "biblio_last_page"
    case Doi => "doi"
    case IsParatext => "is_paratext"
    case IsRetracted => "is_retracted"
    case Language => "language"
    case OpenAccessOf(IsOa) => "open_access_is_oa"
    case OpenAccessOf(OaStatus) => "open_access_oa_status"
    case OpenAccessOf(OaUrl) => "open_access_oa_url"
    case OpenAccessOf(Fulltext) => "open_access_fulltext"
    case PublicationDate => "publication_date"
    case PublicationYear => "publication_year"
    case ReferencedWorks => "referenced_works"
    case RelatedWorks => "related_works"
    case Title => "title"
    case Ttype => "ttype"
    case IsOa => "is_oa"
    case License => "license"
  }

  /** The Work table's names: the header, the sub-record fields, and the
      Work's own fields. */
  function ParseWorkField(name: string): (r: Option<WorkField>)
    ensures r.Some? ==> WorkFieldName(r.value) == name
  {
    match ParseHeaderField(name)
    case Some(h) => Some(WorkField.Header(h))
    case None =>
      match ParseWorkSubRecordField(name)
      case Some(f) => Some(f)
      case None => ParseWorkOwnField(name)
  }

  /** The names of the fields read from the apc, location, biblio and open-access sub-records. */
  function ParseWorkSubRecordField(name: string): (r: Option<WorkField>)
    ensures r.Some? ==> WorkFieldName(r.value) == name
  {
    match name
    case "apc_list_value" => Some(ApcList(Value))
    case "apc_list_currency" => Some(ApcList(Currency))
    case "apc_list_provenance" => Some(ApcList(Provenance))
    case "apc_list_value_usd" => Some(ApcList(ValueUsd))
    case "apc_payment_value" => Some(WorkField.ApcPayment(Value))
    case "apc_payment_currency" => Some(WorkField.ApcPayment(Currency))
    case "apc_payment_provenance" => Some(WorkField.ApcPayment(Provenance))
    case "apc_payment_value_usd" => Some(WorkField.ApcPayment(ValueUsd))
    case "best_oa_location_is_oa" => Some(BestOaLocation(LocationField.IsOa))
    case "best_oa_location_landing_page_url" => Some(BestOaLocation(LandingPageUrl))
    case "best_oa_location_license" => Some(BestOaLocation(LocationField.License))
    case "best_oa_location_pdf_url" => Some(BestOaLocation(PdfUrl))
    case "best_oa_location_version" => Some(BestOaLocation(Version))
    case "biblio_volume" => Some(BiblioOf(Volume))
    case "biblio_issue" => Some(BiblioOf(Issue))
    case "biblio_first_page" => Some(BiblioOf(FirstPage))
    case "biblio_last_page" => Some(BiblioOf(LastPage))
    case "open_access_is_oa" => Some(OpenAccessOf(OpenAccessField.IsOa))
    case "open_access_oa_status" => Some(OpenAccessOf(OaStatus))
    case "open_access_oa_url" => Some(OpenAccessOf(OaUrl))
    case "open_access_fulltext" => Some(OpenAccessOf(Fulltext))
    case _ => None
  }

  /** The names of the Work's own fields outside the header. */
  function ParseWorkOwnField(name: string): (r: Option<WorkField>)
    ensures r.Some? ==> WorkFieldName(r.value) == name
  {
    match name
    case "abstract_text" => Some(AbstractText)
    case "doi" => Some(Doi)
    case "is_paratext" => Some(IsParatext)
    case "is_retracted" => Some(IsRetracted)
    case "language" => Some(Language)
    case "publication_date" => Some(PublicationDate)
    case "publication_year" => Some(PublicationYear)
    case "referenced_works" => Some(ReferencedWorks)
    case "related_works" => Some(RelatedWorks)
    case "title" => Some(Title)
    case "ttype" => Some(WorkField.Ttype)
    case "is_oa" => Some(WorkField.IsOa)
    case "license" => Some(WorkField.License)
    case _ => None
  }


  function PaymentSchema(p: PaymentField): FieldSchema
  {
    FieldSchema(if p.Value? || p.ValueUsd? then IntType else StringType, true)
  }

  function WorkSchema(f: WorkField): FieldSchema
  {
    match f
    case Header(h) => HeaderSchema(h, NullWhenAbsent)
    case ApcList(p) => PaymentSchema(p)
    case ApcPayment(p) => PaymentSchema(p)
    case BestOaLocation(l) => LocationSchema(l)
    case BiblioOf(_) => FieldSchema(StringType, true)
    case OpenAccessOf(o) => OpenAccessSchema(o)
    case IsParatext | IsRetracted | IsOa => FieldSchema(BoolType, false)
    case PublicationYear => FieldSchema(IntType, false)
    case ReferencedWorks | RelatedWorks => FieldSchema(StringListType, false)
    case _ => FieldSchema(StringType, false)
  }

  /** A sub-field of an optional payment (`apc_list` or `apc_paid`). */
  function PaymentValue(payment: Option<Payment>, p: PaymentField): (r: FieldValue)
    ensures payment.None? ==> r == Null
    ensures Conforms(r, PaymentSchema(p))
  {
    match p
    case Value => IntOrNull(payment.AndThen((x: Payment) => x.value))
    case Currency => StrOrNull(payment.AndThen((x: Payment) => x.currency))
    case Provenance => StrOrNull(payment.AndThen((x: Payment) => x.provenance))
    case ValueUsd => IntOrNull(payment.AndThen((x: Payment) => x.valueUsd))
  }

  function LocationSchema(l: LocationField): FieldSchema
  {
    FieldSchema(if l.IsOa? then BoolType else StringType, true)
  }

  /** A sub-field of the optional best open-access location. */
  function LocationValue(location: Option<Location>, l: LocationField): (r: FieldValue)
    ensures location.None? ==> r == Null
    ensures Conforms(r, LocationSchema(l))
  {
    match l
    case IsOa => BoolOrNull(location.AndThen((x: Location) => x.isOa))
    case LandingPageUrl => StrOrNull(location.AndThen((x: Location) => x.landingPageUrl))
    case License => StrOrNull(location.AndThen((x: Location) => x.license))
    case PdfUrl => StrOrNull(location.AndThen((x: Location) => x.pdfUrl))
    case Version => StrOrNull(location.AndThen((x: Location) => x.version))
  }

  /** A sub-field of the optional bibliographic record. */
  function BiblioValue(biblio: Option<Biblio>, b: BiblioField): (r: FieldValue)
    ensures biblio.None? ==> r == Null
    ensures Conforms(r, FieldSchema(StringType, true))
  {
    match b
    case Volume => StrOrNull(biblio.AndThen((x: Biblio) => x.volume))
    case Issue => StrOrNull(biblio.AndThen((x: Biblio) => x.issue))
    case FirstPage => StrOrNull(biblio.AndThen((x: Biblio) => x.firstPage))
    case LastPage => StrOrNull(biblio.AndThen((x: Biblio) => x.lastPage))
  }

  function OpenAccessSchema(o: OpenAccessField): FieldSchema
  {
    FieldSchema(if o.IsOa? || o.Fulltext? then BoolType else StringType, true)
  }

  /** A sub-field of the optional open-access record. */
  function OpenAccessValue(openAccess: Option<OpenAccess>, o: OpenAccessField): (r: FieldValue)
    ensures openAccess.None? ==> r == Null
    ensures Conforms(r, OpenAccessSchema(o))
  {
    match o
    case IsOa => BoolOrNull(openAccess.AndThen((x: OpenAccess) => x.isOa))
    case OaStatus => StrOrNull(openAccess.AndThen((x: OpenAccess) => x.oaStatus))
    case OaUrl => StrOrNull(openAccess.AndThen((x: OpenAccess) => x.oaUrl))
    case Fulltext => BoolOrNull(openAccess.AndThen((x: OpenAccess) => x.anyRepositoryHasFulltext))
  }

  /** The value of a Work field. A field read from an optional sub-record
      (`apc_list`, `apc_paid`, `best_oa_location`, `biblio`, `open_access`) is
      Null whenever that sub-record is absent, whatever the sub-field. */
  function WorkValue(work: Work, f: WorkField): (r: FieldValue)
    ensures f.ApcList? && work.apcList.None? ==> r == Null
    ensures f.ApcPayment? && work.apcPaid.None? ==> r == Null
    ensures f.BestOaLocation? && work.bestOaLocation.None? ==> r == Null
    ensures f.BiblioOf? && work.biblio.None? ==> r == Null
    ensures f.OpenAccessOf? && work.openAccess.None? ==> r == Null
    ensures f.Header? && f.h.IsIds() ==> r == StrOrNull(IdsMember(work.obj.ids, f.h))
  {
    match f
    case Header(h) => HeaderValue(work.obj, h, NullWhenAbsent).value
    case AbstractText => Str(work.abstractInvertedIndex)
    case ApcList(p) => PaymentValue(work.apcList, p)
    case ApcPayment(p) => PaymentValue(work.apcPaid, p)
    case BestOaLocation(l) => LocationValue(work.bestOaLocation, l)
    case BiblioOf(b) => BiblioValue(work.biblio, b)
    case Doi => Str(work.doi)
    case IsParatext => Bool(work.isParatext)
    case IsRetracted => Bool(work.isRetracted)
    case Language => Str(work.language)
    case OpenAccessOf(o) => OpenAccessValue(work.openAccess, o)
    case PublicationDate => Str(work.publicationDate)
    case PublicationYear => Int(work.publicationYear)
    case ReferencedWorks => StrList(work.referencedWorks)
    case RelatedWorks => StrList(work.relatedWorks)
    case Title => Str(work.title)
    case Ttype => Str(work.ttype)
    case IsOa => Bool(work.isOa)
    case License => Str(work.license)
  }

  /** Every Work field's value has the field's declared shape. */
  lemma WorkValueConforms(work: Work, f: WorkField)
    ensures Conforms(WorkValue(work, f), WorkSchema(f))
  {
    if f.Header? {
      assert HeaderValue(work.obj, f.h, NullWhenAbsent).Ok?;
    }
  }

  /** `get_work_property`: panics unless the vertex is a Work and the name is
      in the Work table; otherwise the field's value. */
  function GetWorkProperty(v: Vertex, field: string): (r: Fallible<FieldValue>)
    ensures !v.Work? ==> r == Panicked(ExpectFailed("Vertex was not a work"))
    ensures v.Work? && ParseWorkField(field).None? ==> r == Panicked(Unreachable("Work property " + field))
    ensures r.Ok? <==> v.Work? && ParseWorkField(field).Some?
    ensures r.Ok? ==> r.value == WorkValue(v.work, ParseWorkField(field).value)
  {
    match Expect(AsWork(v), "Vertex was not a work")
    case Panicked(p) => Panicked(p)
    case Ok(work) =>
      match ParseWorkField(field)
      case Some(f) => Ok(WorkValue(work, f))
      case None => Panicked(Unreachable("Work property " + field))
  }

  // ---------------------------------------------------------------------------
  // Author

  datatype AuthorField =
    | Header(h: HeaderField)
    | DisplayNameAlternatives
    | Orcid
    | Summary(s: SummaryField)
    | WorksCount

  /** The name under which the Author table reads each of its fields. */
  function AuthorFieldName(f: AuthorField): string
  {
    match f
    case Header(h) => HeaderFieldName(h)
    case Summary(s) => SummaryFieldName(s)
    case DisplayNameAlternatives => "display_name_alternatives"
    case Orcid => "orcid"
    case WorksCount => "works_count"
  }

  function ParseAuthorField(name: string): (r: Option<AuthorField>)
    ensures r.Some? ==> AuthorFieldName(r.value) == name
  {
    match ParseHeaderField(name)
    case Some(h) => Some(AuthorField.Header(h))
    case None =>
      match ParseSummaryField(name)
      case Some(s) => Some(AuthorField.Summary(s))
      case None =>
        match name
        case "display_name_alternatives" => Some(AuthorField.DisplayNameAlternatives)
        case "orcid" => Some(Orcid)
        case "works_count" => Some(AuthorField.WorksCount)
        case _ => None
  }

  function AuthorSchema(f: AuthorField): FieldSchema
  {
    match f
    case Header(h) => HeaderSchema(h, NullWhenAbsent)
    case DisplayNameAlternatives => FieldSchema(StringListType, false)
    case Orcid => FieldSchema(StringType, false)
    case Summary(s) => SummarySchema(s)
    case WorksCount => FieldSchema(IntType, false)
  }

  function AuthorValue(author: Author, f: AuthorField): (r: FieldValue)
    ensures Conforms(r, AuthorSchema(f))
    ensures f.Summary? && author.summaryStats.None? ==> r == Null
    ensures f.Header? && f.h.IsIds() ==> r == StrOrNull(IdsMember(author.obj.ids, f.h))
  {
    match f
    case Header(h) => HeaderValue(author.obj, h, NullWhenAbsent).value
    case DisplayNameAlternatives => StrList(author.displayNameAlternatives)
    case Orcid => Str(author.orcid)
    case Summary(s) => SummaryValue(author.summaryStats, s)
    case WorksCount => Int(author.worksCount)
  }

  /** `get_author_property`. */
  function GetAuthorProperty(v: Vertex, field: string): (r: Fallible<FieldValue>)
    ensures !v.Author? ==> r == Panicked(ExpectFailed("Vertex was not an author"))
    ensures v.Author? && ParseAuthorField(field).None? ==> r == Panicked(Unreachable("Author property " + field))
    ensures r.Ok? <==> v.Author? && ParseAuthorField(field).Some?
    ensures r.Ok? ==> r.value == AuthorValue(v.author, ParseAuthorField(field).value)
  {
    match Expect(AsAuthor(v), "Vertex was not an author")
    case Panicked(p) => Panicked(p)
    case Ok(author) =>
      match ParseAuthorField(field)
      case Some(f) => Ok(AuthorValue(author, f))
      case None => Panicked(Unreachable("Author property " + field))
  }

  // ---------------------------------------------------------------------------
  // Source

  datatype SourceField =
    | Header(h: HeaderField)
    | AbreviatedTitle | AlternativeTitles | ApcPayment | ApcUsd | CountryCode
    | HomepageUrl | HostOrganizationName | IsInDoaj | IsOa | Issn | IssnL | Societies
    | Summary(s: SummaryField)
    | Ttype | WorksApiUrl | WorksCount

  /** The name under which the Source table reads each of its fields. */
  function SourceFieldName(f: SourceField): string
  {
    match f
    case Header(h) => HeaderFieldName(h)
    case Summary(s) => SummaryFieldName(s)
    case AbreviatedTitle => "abreviated_title"
    case AlternativeTitles => "alternative_titles"
    case ApcPayment => "apc_payment"
    case ApcUsd => "apc_usd"
    case CountryCode => "country_code"
    case HomepageUrl => "homepage_url"
    case HostOrganizationName => "host_organization_name"
    case IsInDoaj => "is_in_doaj"
    case IsOa => "is_oa"
    case Issn => "issn"
    case IssnL => "issn_l"
    case Societies => "societies"
    case Ttype => "ttype"
    case WorksApiUrl => "works_api_url"
    case WorksCount => "works_count"
  }

  /** The Source table's names: the header, the summary statistics, the
      list-valued fields and the scalar fields. */
  function ParseSourceField(name: string): (r: Option<SourceField>)
    ensures r.Some? ==> SourceFieldName(r.value) == name
  {
    match ParseHeaderField(name)
    case Some(h) => Some(SourceField.Header(h))
    case None =>
      match ParseSummaryField(name)
      case Some(s) => Some(SourceField.Summary(s))
      case None =>
        match ParseSourceListField(name)
        case Some(f) => Some(f)
        case None => ParseSourceScalarField(name)
  }

  /** The names of the Source fields whose values are lists. */
  function ParseSourceListField(name: string): (r: Option<SourceField>)
    ensures r.Some? ==> SourceFieldName(r.value) == name
  {
    match name
    case "alternative_titles" => Some(SourceField.AlternativeTitles)
    case "apc_payment" => Some(SourceField.ApcPayment)
    case "issn" => Some(Issn)
    case "societies" => Some(Societies)
    case _ => None
  }

  /** The names of the remaining Source fields. */
  function ParseSourceScalarField(name: string): (r: Option<SourceField>)
    ensures r.Some? ==> SourceFieldName(r.value) == name
  {
    match name
    case "abreviated_title" => Some(AbreviatedTitle)
    case "apc_usd" => Some(ApcUsd)
    case "country_code" => Some(SourceField.CountryCode)
    case "homepage_url" => Some(SourceField.HomepageUrl)
    case "host_organization_name" => Some(HostOrganizationName)
    case "is_in_doaj" => Some(IsInDoaj)
    case "is_oa" => Some(SourceField.IsOa)
    case "issn_l" => Some(IssnL)
    case "ttype" => Some(SourceField.Ttype)
    case "works_api_url" => Some(WorksApiUrl)
    case "works_count" => Some(SourceField.WorksCount)
    case _ => None
  }


  function SourceSchema(f: SourceField): FieldSchema
  {
    match f
    case Header(h) => HeaderSchema(h, UnwrapIds)
    case AlternativeTitles | ApcPayment | Issn | Societies => FieldSchema(StringListType, false)
    case ApcUsd | WorksCount => FieldSchema(IntType, false)
    case IsInDoaj | IsOa => FieldSchema(BoolType, false)
    case Summary(s) => SummarySchema(s)
    case _ => FieldSchema(StringType, false)
  }

  /** The value of a Source field; the header's identifiers are unwrapped, so
      an absent one panics. */
  function SourceValue(source: Source, f: SourceField): (r: Fallible<FieldValue>)
    ensures r.Panicked? <==> f.Header? && f.h.IsIds() && IdsMember(source.obj.ids, f.h).None?
    ensures r.Panicked? ==> r.panic == UnwrapNone
    ensures r.Ok? ==> Conforms(r.value, SourceSchema(f))
    ensures f.Summary? && source.summaryStats.None? ==> r == Ok(Null)
    ensures f.ApcPayment? ==> r == Ok(StrList(ApcEntries(source.apcPayment)))
    ensures f.Societies? ==> r == Ok(StrList(SocietyEntries(source.societies)))
  {
    match f
    case Header(h) => HeaderValue(source.obj, h, UnwrapIds)
    case AbreviatedTitle => Ok(Str(source.abreviatedTitle))
    case AlternativeTitles => Ok(StrList(source.alternativeTitles))
    case ApcPayment => Ok(StrList(ApcEntries(source.apcPayment)))
    case ApcUsd => Ok(Int(source.apcUsd))
    case CountryCode => Ok(Str(source.countryCode))
    case HomepageUrl => Ok(Str(source.homepageUrl))
    case HostOrganizationName => Ok(Str(source.hostOrganizationName))
    case IsInDoaj => Ok(Bool(source.isInDoaj))
    case IsOa => Ok(Bool(source.isOa))
    case Issn => Ok(StrList(source.issn))
    case IssnL => Ok(Str(source.issnL))
    case Societies => Ok(StrList(SocietyEntries(source.societies)))
    case Summary(s) => Ok(SummaryValue(source.summaryStats, s))
    case Ttype => Ok(Str(source.ttype))
    case WorksApiUrl => Ok(Str(source.worksApiUrl))
    case WorksCount => Ok(Int(source.worksCount))
  }

  /** `get_source_property`. */
  function GetSourceProperty(v: Vertex, field: string): (r: Fallible<FieldValue>)
    ensures !v.Source? ==> r == Panicked(ExpectFailed("Vertex was not a source"))
    ensures v.Source? && ParseSourceField(field).None? ==> r == Panicked(Unreachable("Source property " + field))
    ensures v.Source? && ParseSourceField(field).Some? ==> r == SourceValue(v.source, ParseSourceField(field).value)
  {
    match Expect(AsSource(v), "Vertex was not a source")
    case Panicked(p) => Panicked(p)
    case Ok(source) =>
      match ParseSourceField(field)
      case Some(f) => SourceValue(source, f)
      case None => Panicked(Unreachable("Source property " + field))
  }

  // ---------------------------------------------------------------------------
  // Concept

  datatype ConceptField =
    | Header(h: HeaderField)
    | Description | ImageThumbnailUrl | ImageUrl | Level
    | Summary(s: SummaryField)
    | Wikidata | WorksCount

  /** The name under which the Concept table reads each of its fields. */
  function ConceptFieldName(f: ConceptField): string
  {
    match f
    case Header(h) => HeaderFieldName(h)
    case Summary(s) => SummaryFieldName(s)
    case Description => "description"
    case ImageThumbnailUrl => "image_thumbnail_url"
    case ImageUrl => "image_url"
    case Level => "level"
    case Wikidata => "wikidata"
    case WorksCount => "works_count"
  }

  function ParseConceptField(name: string): (r: Option<ConceptField>)
    ensures r.Some? ==> ConceptFieldName(r.value) == name
  {
    match ParseHeaderField(name)
    case Some(h) => Some(ConceptField.Header(h))
    case None =>
      match ParseSummaryField(name)
      case Some(s) => Some(ConceptField.Summary(s))
      case None =>
        match name
        case "description" => Some(ConceptField.Description)
        case "image_thumbnail_url" => Some(ConceptField.ImageThumbnailUrl)
        case "image_url" => Some(ConceptField.ImageUrl)
        case "level" => Some(Level)
        case "wikidata" => Some(Wikidata)
        case "works_count" => Some(ConceptField.WorksCount)
        case _ => None
  }

  function ConceptSchema(f: ConceptField): FieldSchema
  {
    match f
    case Header(h) => HeaderSchema(h, UnwrapIds)
    case Level | WorksCount => FieldSchema(IntType, false)
    case Summary(s) => SummarySchema(s)
    case _ => FieldSchema(StringType, false)
  }

  function ConceptValue(concept: Concept, f: ConceptField): (r: Fallible<FieldValue>)
    ensures r.Panicked? <==> f.Header? && f.h.IsIds() && IdsMember(concept.obj.ids, f.h).None?
    ensures r.Panicked? ==> r.panic == UnwrapNone
    ensures r.Ok? ==> Conforms(r.value, ConceptSchema(f))
    ensures f.Summary? && concept.summaryStats.None? ==> r == Ok(Null)
  {
    match f
    case Header(h) => HeaderValue(concept.obj, h, UnwrapIds)
    case Description => Ok(Str(concept.description))
    case ImageThumbnailUrl => Ok(Str(concept.imageThumbnailUrl))
    case ImageUrl => Ok(Str(concept.imageUrl))
    case Level => Ok(Int(concept.level))
    case Summary(s) => Ok(SummaryValue(concept.summaryStats, s))
    case Wikidata => Ok(Str(concept.wikidata))
    case WorksCount => Ok(Int(concept.worksCount))
  }

  /** `get_concept_property`. */
  function GetConceptProperty(v: Vertex, field: string): (r: Fallible<FieldValue>)
    ensures !v.Concept? ==> r == Panicked(ExpectFailed("Vertex was not a concept"))
    ensures v.Concept? && ParseConceptField(field).None? ==> r == Panicked(Unreachable("Concept property " + field))
    ensures v.Concept? && ParseConceptField(field).Some? ==>
      r == ConceptValue(v.concept, ParseConceptField(field).value)
  {
    match Expect(AsConcept(v), "Vertex was not a concept")
    case Panicked(p) => Panicked(p)
    case Ok(concept) =>
      match ParseConceptField(field)
      case Some(f) => ConceptValue(concept, f)
      case None => Panicked(Unreachable("Concept property " + field))
  }

  // ---------------------------------------------------------------------------
  // Institution

  datatype GeoField = City | GeonamesCityId | Region | CountryCode | Country | Latitude | Longitude

  datatype InstitutionField =
    | Header(h: HeaderField)
    | CountryCodes | DisplayNameAlternatives
    | GeoOf(g: GeoField)
    | HomepageUrl | Ror | Ttype
    | Summary(s: SummaryField)
    | WorksCount

  /** The name under which the Institution table reads each of its fields. */
  function InstitutionFieldName(f: InstitutionField): string
  {
    match f
    case Header(h) => HeaderFieldName(h)
    case Summary(s) => SummaryFieldName(s)
    case CountryCodes => "country_codes"
    case DisplayNameAlternatives => "display_name_alternatives"
    case GeoOf(City) => "geo_city"
    case GeoOf(GeonamesCityId) => "geo_geonames_city_id"
    case GeoOf(Region) => "geo_region"
    case GeoOf(CountryCode) => "geo_country_code"
    case GeoOf(Country) => "geo_country"
    case GeoOf(Latitude) => "geo_latitude"
    case GeoOf(Longitude) => "geo_longitude"
    case HomepageUrl => "homepage_url"
    case Ror => "ror"
    case Ttype => "ttype"
    case WorksCount => "works_count"
  }

  function ParseInstitutionField(name: string): (r: Option<InstitutionField>)
    ensures r.Some? ==> InstitutionFieldName(r.value) == name
  {
    match ParseHeaderField(name)
    case Some(h) => Some(InstitutionField.Header(h))
    case None =>
      match ParseSummaryField(name)
      case Some(s) => Some(InstitutionField.Summary(s))
      case None =>
        match name
        case "country_codes" => Some(InstitutionField.CountryCodes)
        case "display_name_alternatives" => Some(InstitutionField.DisplayNameAlternatives)
        case "geo_city" => Some(GeoOf(City))
        case "geo_geonames_city_id" => Some(GeoOf(GeonamesCityId))
        case "geo_region" => Some(GeoOf(Region))
        case "geo_country_code" => Some(GeoOf(GeoField.CountryCode))
        case "geo_country" => Some(GeoOf(Country))
        case "geo_latitude" => Some(GeoOf(Latitude))
        case "geo_longitude" => Some(GeoOf(Longitude))
        case "homepage_url" => Some(InstitutionField.HomepageUrl)
        case "ror" => Some(Ror)
        case "ttype" => Some(InstitutionField.Ttype)
        case "works_count" => Some(InstitutionField.WorksCount)
        case _ => None
  }

  function InstitutionSchema(f: InstitutionField): FieldSchema
  {
    match f
    case Header(h) => HeaderSchema(h, NullWhenAbsent)
    case DisplayNameAlternatives => FieldSchema(StringListType, false)
    case GeoOf(g) => FieldSchema(if g.Latitude? || g.Longitude? then IntType else StringType, true)
    case Summary(s) => SummarySchema(s)
    case WorksCount => FieldSchema(IntType, false)
    case _ => FieldSchema(StringType, false)
  }

  /** The value of an Institution field. `country_codes` is the institution's
      single country code; the `geo_*` fields are Null whenever `geo` is absent. */
  function InstitutionValue(institution: Institution, f: InstitutionField): (r: FieldValue)
    ensures Conforms(r, InstitutionSchema(f))
    ensures f.GeoOf? && institution.geo.None? ==> r == Null
    ensures f.Summary? && institution.summaryStats.None? ==> r == Null
    ensures f.Header? && f.h.IsIds() ==> r == StrOrNull(IdsMember(institution.obj.ids, f.h))
  {
    match f
    case Header(h) => HeaderValue(institution.obj, h, NullWhenAbsent).value
    case CountryCodes => Str(institution.countryCode)
    case DisplayNameAlternatives => StrList(institution.displayNameAlternatives)
    case GeoOf(g) =>
      (match g
      case City => StrOrNull(institution.geo.AndThen((x: Geo) => x.city))
      case GeonamesCityId => StrOrNull(institution.geo.AndThen((x: Geo) => x.geonamesCityId))
      case Region => StrOrNull(institution.geo.AndThen((x: Geo) => x.region))
      case CountryCode => StrOrNull(institution.geo.AndThen((x: Geo) => x.countryCode))
      case Country => StrOrNull(institution.geo.AndThen((x: Geo) => x.country))
      case Latitude => IntOrNull(institution.geo.AndThen((x: Geo) => x.latitude))
      case Longitude => IntOrNull(institution.geo.AndThen((x: Geo) => x.longitude)))
    case HomepageUrl => Str(institution.homepageUrl)
    case Ror => Str(institution.ror)
    case Ttype => Str(institution.ttype)
    case Summary(s) => SummaryValue(institution.summaryStats, s)
    case WorksCount => Int(institution.worksCount)
  }

  /** `get_institution_property`. */
  function GetInstitutionProperty(v: Vertex, field: string): (r: Fallible<FieldValue>)
    ensures !v.Institution? ==> r == Panicked(ExpectFailed("Vertex was not an institution"))
    ensures v.Institution? && ParseInstitutionField(field).None? ==>
      r == Panicked(Unreachable("Institution property " + field))
    ensures r.Ok? <==> v.Institution? && ParseInstitutionField(field).Some?
    ensures r.Ok? ==> r.value == InstitutionValue(v.institution, ParseInstitutionField(field).value)
  {
    match Expect(AsInstitution(v), "Vertex was not an institution")
    case Panicked(p) => Panicked(p)
    case Ok(institution) =>
      match ParseInstitutionField(field)
      case Some(f) => Ok(InstitutionValue(institution, f))
      case None => Panicked(Unreachable("Institution property " + field))
  }

  // ---------------------------------------------------------------------------
  // Publisher

  datatype PublisherField =
    | Header(h: HeaderField)
    | AlternativeTitles | CountryCodes | HierarchyLevel | ImageThumbnailUrl | ImageUrl
    | Summary(s: SummaryField)
    | WorksCount

  /** The name under which the Publisher table reads each of its fields. */
  function PublisherFieldName(f: PublisherField): string
  {
    match f
    case Header(h) => HeaderFieldName(h)
    case Summary(s) => SummaryFieldName(s)
    case AlternativeTitles => "alternative_titles"
    case CountryCodes => "country_codes"
    case HierarchyLevel => "hierarchy_level"
    case ImageThumbnailUrl => "image_thumbnail_url"
    case ImageUrl => "image_url"
    case WorksCount => "works_count"
  }

  function ParsePublisherField(name: string): (r: Option<PublisherField>)
    ensures r.Some? ==> PublisherFieldName(r.value) == name
  {
    match ParseHeaderField(name)
    case Some(h) => Some(PublisherField.Header(h))
    case None =>
      match ParseSummaryField(name)
      case Some(s) => Some(PublisherField.Summary(s))
      case None =>
        match name
        case "alternative_titles" => Some(PublisherField.AlternativeTitles)
        case "country_codes" => Some(PublisherField.CountryCodes)
        case "hierarchy_level" => Some(HierarchyLevel)
        case "image_thumbnail_url" => Some(PublisherField.ImageThumbnailUrl)
        case "image_url" => Some(PublisherField.ImageUrl)
        case "works_count" => Some(PublisherField.WorksCount)
        case _ => None
  }

  function PublisherSchema(f: PublisherField): FieldSchema
  {
    match f
    case Header(h) => HeaderSchema(h, UnwrapIds)
    case AlternativeTitles | CountryCodes => FieldSchema(StringListType, false)
    case HierarchyLevel | WorksCount => FieldSchema(IntType, false)
    case Summary(s) => SummarySchema(s)
    case _ => FieldSchema(StringType, false)
  }

  function PublisherValue(publisher: Publisher, f: PublisherField): (r: Fallible<FieldValue>)
    ensures r.Panicked? <==> f.Header? && f.h.IsIds() && IdsMember(publisher.obj.ids, f.h).None?
    ensures r.Panicked? ==> r.panic == UnwrapNone
    ensures r.Ok? ==> Conforms(r.value, PublisherSchema(f))
    ensures f.Summary? && publisher.summaryStats.None? ==> r == Ok(Null)
  {
    match f
    case Header(h) => HeaderValue(publisher.obj, h, UnwrapIds)
    case AlternativeTitles => Ok(StrList(publisher.alternativeTitles))
    case CountryCodes => Ok(StrList(publisher.countryCodes))
    case HierarchyLevel => Ok(Int(publisher.hierarchyLevel))
    case ImageThumbnailUrl => Ok(Str(publisher.imageThumbnailUrl))
    case ImageUrl => Ok(Str(publisher.imageUrl))
    case Summary(s) => Ok(SummaryValue(publisher.summaryStats, s))
    case WorksCount => Ok(Int(publisher.worksCount))
  }

  /** `get_publisher_property`. */
  function GetPublisherProperty(v: Vertex, field: string): (r: Fallible<FieldValue>)
    ensures !v.Publisher? ==> r == Panicked(ExpectFailed("Vertex was not a publisher"))
    ensures v.Publisher? && ParsePublisherField(field).None? ==>
      r == Panicked(Unreachable("Publisher property " + field))
    ensures v.Publisher? && ParsePublisherField(field).Some? ==>
      r == PublisherValue(v.publisher, ParsePublisherField(field).value)
  {
    match Expect(AsPublisher(v), "Vertex was not a publisher")
    case Panicked(p) => Panicked(p)
    case Ok(publisher) =>
      match ParsePublisherField(field)
      case Some(f) => PublisherValue(publisher, f)
      case None => Panicked(Unreachable("Publisher property " + field))
  }

  // ---------------------------------------------------------------------------
  // Funder

  datatype FunderField =
    | Header(h: HeaderField)
    | AlternativeTitles | CountryCode | Description | GrantsCount | HomepageUrl
    | ImageThumbnailUrl | ImageUrl
    | Summary(s: SummaryField)
    | WorksCount

  /** The name under which the Funder table reads each of its fields. */
  function FunderFieldName(f: FunderField): string
  {
    match f
    case Header(h) => HeaderFieldName(h)
    case Summary(s) => SummaryFieldName(s)
    case AlternativeTitles => "alternative_titles"
    case CountryCode => "country_code"
    case Description => "description"
    case GrantsCount => "grants_count"
    case HomepageUrl => "homepage_url"
    case ImageThumbnailUrl => "image_thumbnail_url"
    case ImageUrl => "image_url"
    case WorksCount => "works_count"
  }

  function ParseFunderField(name: string): (r: Option<FunderField>)
    ensures r.Some? ==> FunderFieldName(r.value) == name
  {
    match ParseHeaderField(name)
    case Some(h) => Some(FunderField.Header(h))
    case None =>
      match ParseSummaryField(name)
      case Some(s) => Some(FunderField.Summary(s))
      case None =>
        match name
        case "alternative_titles" => Some(FunderField.AlternativeTitles)
        case "country_code" => Some(FunderField.CountryCode)
        case "description" => Some(FunderField.Description)
        case "grants_count" => Some(GrantsCount)
        case "homepage_url" => Some(FunderField.HomepageUrl)
        case "image_thumbnail_url" => Some(FunderField.ImageThumbnailUrl)
        case "image_url" => Some(FunderField.ImageUrl)
        case "works_count" => Some(FunderField.WorksCount)
        case _ => None
  }

  function FunderSchema(f: FunderField): FieldSchema
  {
    match f
    case Header(h) => HeaderSchema(h, UnwrapIds)
    case AlternativeTitles => FieldSchema(StringListType, false)
    case GrantsCount | WorksCount => FieldSchema(IntType, false)
    case Summary(s) => SummarySchema(s)
    case _ => FieldSchema(StringType, false)
  }

  function FunderValue(funder: Funder, f: FunderField): (r: Fallible<FieldValue>)
    ensures r.Panicked? <==> f.Header? && f.h.IsIds() && IdsMember(funder.obj.ids, f.h).None?
    ensures r.Panicked? ==> r.panic == UnwrapNone
    ensures r.Ok? ==> Conforms(r.value, FunderSchema(f))
    ensures f.Summary? && funder.summaryStats.None? ==> r == Ok(Null)
  {
    match f
    case Header(h) => HeaderValue(funder.obj, h, UnwrapIds)
    case AlternativeTitles => Ok(StrList(funder.alternativeTitles))
    case CountryCode => Ok(Str(funder.countryCode))
    case Description => Ok(Str(funder.description))
    case GrantsCount => Ok(Int(funder.grantsCount))
    case HomepageUrl => Ok(Str(funder.homepageUrl))
    case ImageThumbnailUrl => Ok(Str(funder.imageThumbnailUrl))
    case ImageUrl => Ok(Str(funder.imageUrl))
    case Summary(s) => Ok(SummaryValue(funder.summaryStats, s))
    case WorksCount => Ok(Int(funder.worksCount))
  }

  /** `get_funder_property`. */
  function GetFunderProperty(v: Vertex, field: string): (r: Fallible<FieldValue>)
    ensures !v.Funder? ==> r == Panicked(ExpectFailed("Vertex was not a funder"))
    ensures v.Funder? && ParseFunderField(field).None? ==> r == Panicked(Unreachable("Funder property " + field))
    ensures v.Funder? && ParseFunderField(field).Some? ==> r == FunderValue(v.funder, ParseFunderField(field).value)
  {
    match Expect(AsFunder(v), "Vertex was not a funder")
    case Panicked(p) => Panicked(p)
    case Ok(funder) =>
      match ParseFunderField(field)
      case Some(f) => FunderValue(funder, f)
      case None => Panicked(Unreachable("Funder property " + field))
  }

  // ---------------------------------------------------------------------------
  // Resolution over rows

  /** The table `resolve_property` selects for a known type name. Every
      table refuses a vertex of another variant with an `expect` panic and an
      unknown name with an `unreachable!` panic; only the tables that unwrap
      the external identifiers can panic otherwise. */
  function GetProperty(k: VertexKind, v: Vertex, field: string): (r: Fallible<FieldValue>)
    ensures KindOf(v) != k ==> r == Panicked(ExpectFailed(
      match k
      case Work => "Vertex was not a work"
      case Author => "Vertex was not an author"
      case Source => "Vertex was not a source"
      case Concept => "Vertex was not a concept"
      case Institution => "Vertex was not an institution"
      case Publisher => "Vertex was not a publisher"
      case Funder => "Vertex was not a funder"))
    ensures KindOf(v) == k && r.Panicked? ==> r.panic.Unreachable? || r.panic == UnwrapNone
    ensures KindOf(v) == k && (k == VertexKind.Work || k == VertexKind.Author || k == VertexKind.Institution) ==>
      (r.Panicked? ==> r.panic.Unreachable?)
  {
    match k
    case Work => GetWorkProperty(v, field)
    case Author => GetAuthorProperty(v, field)
    case Concept => GetConceptProperty(v, field)
    case Source => GetSourceProperty(v, field)
    case Institution => GetInstitutionProperty(v, field)
    case Publisher => GetPublisherProperty(v, field)
    case Funder => GetFunderProperty(v, field)
  }

  /** `property_mapper`: the row is passed through unchanged, paired with Null
      when it has no active vertex and with the getter's value otherwise. */
  function PropertyMapper(ctx: Context, field: string, getter: (Vertex, string) -> Fallible<FieldValue>)
    : (r: Fallible<(Context, FieldValue)>)
    ensures r.Ok? ==> r.value.0 == ctx
    ensures ctx.activeVertex.None? ==> r == Ok((ctx, Null))
    ensures ctx.activeVertex.Some? ==> (r.Ok? <==> getter(ctx.activeVertex.value, field).Ok?)
    ensures ctx.activeVertex.Some? && r.Ok? ==> r.value.1 == getter(ctx.activeVertex.value, field).value
    ensures ctx.activeVertex.Some? && r.Panicked? ==> r.panic == getter(ctx.activeVertex.value, field).panic
  {
    match ctx.activeVertex
    case None => Ok((ctx, Null))
    case Some(vertex) =>
      match getter(vertex, field)
      case Ok(value) => Ok((ctx, value))
      case Panicked(p) => Panicked(p)
  }

  /** The `__typename` meta-field of a row. */
  function TypenameValue(ctx: Context): (r: FieldValue)
    ensures ctx.activeVertex.None? ==> r == Null
    ensures ctx.activeVertex.Some? ==> r == Str(Typename(ctx.activeVertex.value))
  {
    match ctx.activeVertex
    case Some(vertex) => Str(Typename(vertex))
    case None => Null
  }

  /** The per-row step of `resolve_property` for the table of kind `k`. */
  function PropertyRow(k: VertexKind, field: string): Context -> Fallible<(Context, FieldValue)>
  {
    ctx => PropertyMapper(ctx, field, (v, f) => GetProperty(k, v, f))
  }

  /** The per-row step of `resolve_property` for `__typename`. */
  function TypenameRow(ctx: Context): Fallible<(Context, FieldValue)>
  {
    Ok((ctx, TypenameValue(ctx)))
  }

  /** `resolve_property`, drained. `__typename` bypasses the tables for any type
      name; an unknown type name panics before any row is pulled. */
  function ResolveProperty(contexts: seq<Context>, typeName: string, field: string)
    : (r: Stream<(Context, FieldValue)>)
    ensures |r.items| <= |contexts|
    ensures forall i :: 0 <= i < |r.items| ==> r.items[i].0 == contexts[i]
    ensures forall i :: 0 <= i < |r.items| && contexts[i].activeVertex.None? ==> r.items[i].1 == Null
    ensures r.halt.None? ==> |r.items| == |contexts|
    ensures field == "__typename" ==> r.halt.None?
    ensures field == "__typename" ==> forall i :: 0 <= i < |r.items| ==> r.items[i].1 == TypenameValue(contexts[i])
    ensures field != "__typename" && KindNamed(typeName).None? ==>
      r == Stream([], Some(Unreachable("resolve_property " + typeName + " " + field)))
  {
    if field == "__typename" then
      MapRowsComplete(contexts, TypenameRow);
      MapRows(contexts, TypenameRow)
    else
      match KindNamed(typeName)
      case None => Stream([], Some(Unreachable("resolve_property " + typeName + " " + field)))
      case Some(k) => MapRows(contexts, PropertyRow(k, field))
  }

  // ---------------------------------------------------------------------------
  // Properties across the tables

  /** The common header of a vertex. */
  function ObjectOf(v: Vertex): OpenAlexObject
  {
    match v
    case Work(w) => w.obj
    case Author(a) => a.obj
    case Concept(c) => c.obj
    case Source(s) => s.obj
    case Institution(i) => i.obj
    case Publisher(p) => p.obj
    case Funder(f) => f.obj
  }

  /** Every table resolves the header names to the header. */
  lemma HeaderInEveryTable(h: HeaderField)
    ensures ParseWorkField(HeaderFieldName(h)) == Some(WorkField.Header(h))
    ensures ParseAuthorField(HeaderFieldName(h)) == Some(AuthorField.Header(h))
    ensures ParseSourceField(HeaderFieldName(h)) == Some(SourceField.Header(h))
    ensures ParseConceptField(HeaderFieldName(h)) == Some(ConceptField.Header(h))
    ensures ParseInstitutionField(HeaderFieldName(h)) == Some(InstitutionField.Header(h))
    ensures ParsePublisherField(HeaderFieldName(h)) == Some(PublisherField.Header(h))
    ensures ParseFunderField(HeaderFieldName(h)) == Some(FunderField.Header(h))
  {
    HeaderFieldNameRoundTrip(h);
  }

  /** Every table but Work's resolves the summary names to the statistics. */
  lemma SummaryInEveryTableButWork(f: SummaryField)
    ensures ParseAuthorField(SummaryFieldName(f)) == Some(AuthorField.Summary(f))
    ensures ParseSourceField(SummaryFieldName(f)) == Some(SourceField.Summary(f))
    ensures ParseConceptField(SummaryFieldName(f)) == Some(ConceptField.Summary(f))
    ensures ParseInstitutionField(SummaryFieldName(f)) == Some(InstitutionField.Summary(f))
    ensures ParsePublisherField(SummaryFieldName(f)) == Some(PublisherField.Summary(f))
    ensures ParseFunderField(SummaryFieldName(f)) == Some(FunderField.Summary(f))
  {
    SummaryFieldNameRoundTrip(f);
    match f
    case MeanCiteness =>
    case HIndex =>
    case I10Index =>
  }


  /** Every Author field is read under its own name, so the Author table's names are distinct. */
  lemma AuthorFieldNameRoundTrip(f: AuthorField)
    ensures ParseAuthorField(AuthorFieldName(f)) == Some(f)
  {
    match f
    case Header(h) => HeaderInEveryTable(h);
    case Summary(s) => SummaryInEveryTableButWork(s);
    case _ =>
  }


  /** Every Concept field is read under its own name, so the Concept table's names are distinct. */
  lemma ConceptFieldNameRoundTrip(f: ConceptField)
    ensures ParseConceptField(ConceptFieldName(f)) == Some(f)
  {
    match f
    case Header(h) => HeaderInEveryTable(h);
    case Summary(s) => SummaryInEveryTableButWork(s);
    case _ =>
  }


  /** Every Publisher field is read under its own name, so the Publisher table's names are distinct. */
  lemma PublisherFieldNameRoundTrip(f: PublisherField)
    ensures ParsePublisherField(PublisherFieldName(f)) == Some(f)
  {
    match f
    case Header(h) => HeaderInEveryTable(h);
    case Summary(s) => SummaryInEveryTableButWork(s);
    case _ =>
  }

  /** Every Funder field is read under its own name, so the Funder table's names are distinct. */
  lemma FunderFieldNameRoundTrip(f: FunderField)
    ensures ParseFunderField(FunderFieldName(f)) == Some(f)
  {
    match f
    case Header(h) => HeaderInEveryTable(h);
    case Summary(s) => SummaryInEveryTableButWork(s);
    case _ =>
  }

  /** A missing external identifier reads as Null on a Work, Author or
      Institution... */
  lemma MissingIdentifierIsNull(v: Vertex, h: HeaderField)
    requires h.IsIds() && IdsMember(ObjectOf(v).ids, h).None?
    requires v.Work? || v.Author? || v.Institution?
    ensures GetProperty(KindOf(v), v, HeaderFieldName(h)) == Ok(Null)
  {
    HeaderInEveryTable(h);
  }

  /** ...and panics on a Source, Concept, Publisher or Funder, whose tables
      unwrap it. */
  lemma MissingIdentifierPanics(v: Vertex, h: HeaderField)
    requires h.IsIds() && IdsMember(ObjectOf(v).ids, h).None?
    requires v.Source? || v.Concept? || v.Publisher? || v.Funder?
    ensures GetProperty(KindOf(v), v, HeaderFieldName(h)) == Panicked(UnwrapNone)
  {
    HeaderInEveryTable(h);
  }

  /** A present external identifier reads as that identifier in every table. */
  lemma PresentIdentifier(v: Vertex, h: HeaderField)
    requires h.IsIds() && IdsMember(ObjectOf(v).ids, h).Some?
    ensures GetProperty(KindOf(v), v, HeaderFieldName(h)) == Ok(Str(IdsMember(ObjectOf(v).ids, h).value))
  {
    HeaderInEveryTable(h);
  }

  /** `resolve_property` for a known type name: row `i` carries Null without an
      active vertex and otherwise the table's value for it, and the stream is
      complete exactly when the table panics on none of the rows. */
  lemma ResolvePropertyRows(contexts: seq<Context>, typeName: string, field: string, k: VertexKind)
    requires field != "__typename" && KindNamed(typeName) == Some(k)
    ensures var r := ResolveProperty(contexts, typeName, field);
      && (forall i :: 0 <= i < |r.items| ==>
            r.items[i].1 == (if contexts[i].activeVertex.None? then Null
                             else GetProperty(k, contexts[i].activeVertex.value, field).value))
      && (r.halt.None? <==> forall i :: 0 <= i < |contexts| && contexts[i].activeVertex.Some? ==>
                                          GetProperty(k, contexts[i].activeVertex.value, field).Ok?)
  {
    MapRowsComplete(contexts, PropertyRow(k, field));
  }
}
