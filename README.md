# OpenAlex adapter for Trustfall — a Dafny model

This project models the query-resolution layer of `trustfall-openalex-adapter`. Trustfall is a generic
query interpreter. The adapter answers its four kinds of request against the OpenAlex academic-metadata
service.

1. **Starting vertices:** start from a work looked up by id, or from a random work.
2. **Properties:** read a named property of each row's active vertex.
3. **Neighbours:** follow a named edge from each row's active vertex to the vertices it points at,
   fetching them by id or by listing URL.
4. **Coercion:** decide whether an Institution, Publisher or Funder can also be viewed as one of the
   other two, according to the tags of its role list.

The model covers the following.

- **Vertices:** the seven vertex variants (Work, Author, Concept, Source, Institution, Publisher and
  Funder) as datatypes. Each record holds the fields the adapter reads. The shared OpenAlex header
  (id, display name, external-id bundle, citation count, dates) is a record of its own.
- **Inputs:** a query row is a `Context` with an optional active vertex. The remote service is a
  `Gateway`: two functions that return a vertex or a list of vertices.
- **Panics:** every Rust `unreachable!`, `unwrap` and `expect` is a `Panicked` outcome carrying the
  same message. The lazy row-by-row iterators are modelled as a drained `Stream`: the outcomes of the
  rows before the first panicking row, followed by that panic.

The contracts state the following properties.

- **Vertex accessors:** the type name and the `as_*` accessors agree. Exactly one accessor succeeds on
  every vertex. Only Institution, Publisher and Funder have roles.
- **Property tables:**
  - Each table returns the right field, or panics with the source's own message on a wrong variant or
    an unknown name.
  - Every value conforms to the field's declared type and nullability.
  - A missing sub-record gives `Null`, never a panic.
  - A missing external identifier gives `Null` for Work, Author and Institution but panics for Source,
    Concept, Publisher and Funder, which unwrap it.
  - The `apc_payment` strings of a Source parse back to the prices they came from.
- **Resolvers:**
  - `property_mapper` keeps the row and gives `Null` when there is no vertex.
  - `__typename` bypasses the tables.
  - Id lists are fetched in order, dropping failed fetches.
  - Role-indirected edges fetch the first role with the target's tag.
  - Every neighbour returned has the edge's target kind when the gateway is well typed.
  - Coercion is true exactly when the role tag is present.

## Model

| member | source | states |
|---|---|---|
| Wrappers.Unwrap | trustfall-openalex-adapter/src/adapter.rs:188-192 | `Option::unwrap`: succeeds exactly on `Some` with its content; otherwise the panic is the unwrap-of-None panic |
| Wrappers.Expect | trustfall-openalex-adapter/src/adapter.rs:17 | `Option::expect(msg)`: succeeds exactly on `Some` with its content; otherwise the panic carries `msg` |
| Wrappers.AndThen | trustfall-openalex-adapter/src/adapter.rs:30-34 | `Option::and_then`: `None` stays `None`, and `Some(x)` gives `f(x)` |
| Vertices.KindName | trustfall-openalex-adapter/src/vertex.rs:14-24 | the schema name of each kind is one of the seven type names |
| Vertices.KindNamed | trustfall-openalex-adapter/src/adapter.rs:447-457 | the type-name match succeeds exactly on the seven names, and gives back the kind so named |
| Vertices.KindNameRoundTrip | trustfall-openalex-adapter/src/adapter.rs:447-457 | matching a kind's schema name gives that kind back |
| Vertices.KindOf | trustfall-openalex-adapter/src/vertex.rs:1-10 | the kind of a vertex is the kind of its variant, and conversely |
| Vertices.Typename | trustfall-openalex-adapter/src/vertex.rs:14-24 | `typename()` is the schema name of the vertex's kind, and matching it gives that kind back |
| Vertices.TypenameDistinguishesVariants | trustfall-openalex-adapter/src/vertex.rs:14-24 | two vertices have the same type name exactly when they are the same variant |
| Vertices.AsWork | trustfall-openalex-adapter/src/vertex.rs:26-31 | `Some` exactly on a Work vertex, holding the vertex's own record |
| Vertices.AsAuthor | trustfall-openalex-adapter/src/vertex.rs:33-38 | `Some` exactly on an Author vertex, holding its record |
| Vertices.AsConcept | trustfall-openalex-adapter/src/vertex.rs:40-45 | `Some` exactly on a Concept vertex, holding its record |
| Vertices.AsSource | trustfall-openalex-adapter/src/vertex.rs:47-52 | `Some` exactly on a Source vertex, holding its record |
| Vertices.AsInstitution | trustfall-openalex-adapter/src/vertex.rs:54-59 | `Some` exactly on an Institution vertex, holding its record |
| Vertices.AsPublisher | trustfall-openalex-adapter/src/vertex.rs:61-66 | `Some` exactly on a Publisher vertex, holding its record |
| Vertices.AsFunder | trustfall-openalex-adapter/src/vertex.rs:68-73 | `Some` exactly on a Funder vertex, holding its record |
| Vertices.ExactlyOneAccessor | trustfall-openalex-adapter/src/vertex.rs:26-73 | on every vertex exactly one of the seven accessors succeeds |
| Vertices.AccessorsAgreeWithTypename | trustfall-openalex-adapter/src/vertex.rs:14-73 | each accessor succeeds exactly when `typename()` is that accessor's type name |
| Vertices.Roles | trustfall-openalex-adapter/src/vertex.rs:283-356 | only Institution, Publisher and Funder have a role list, and it is their `roles` field |
| Rows.MapRows | trustfall-openalex-adapter/src/adapter.rs:545-566 | `contexts.map(step)`, drained: each item is the step's result on the row at the same position; the stream is complete or stops at the first panicking row with that row's panic |
| Rows.MapRowsComplete | trustfall-openalex-adapter/src/adapter.rs:545-566 | the stream is complete exactly when no row panics, and it is then the row-by-row image of the input |
| Rows.MapRowsPrefix | trustfall-openalex-adapter/src/adapter.rs:545-566 | pulling only the first k rows gives the first k outcomes of the whole stream, or the same stream if it stopped earlier |
| Decimal.ToDecimal | trustfall-openalex-adapter/src/adapter.rs:200 | `u16::to_string` gives a non-empty digit string with no leading zero: "0" is the only numeral that starts with 0, and it renders 0 |
| Decimal.DigitChar | trustfall-openalex-adapter/src/adapter.rs:200 | a digit value below ten renders as a decimal digit character |
| Decimal.DigitValue | trustfall-openalex-adapter/src/adapter.rs:200 | a decimal digit character has a value below ten |
| Decimal.ParseToDecimal | trustfall-openalex-adapter/src/adapter.rs:200 | reading back the rendered numeral gives the number |
| Decimal.ToDecimalInjective | trustfall-openalex-adapter/src/adapter.rs:200 | distinct prices render as distinct numerals |
| Decimal.DigitPrefixLength | trustfall-openalex-adapter/src/adapter.rs:200 | the longest all-digit prefix: every character in it is a digit, and the next one is not |
| Decimal.DigitPrefixOfConcat | trustfall-openalex-adapter/src/adapter.rs:200 | a numeral followed by a non-digit is exactly the longest digit prefix |
| Ascii.ToLower | trustfall-openalex-adapter/src/adapter.rs:470-476 | a specification helper: the source writes the lower-case endpoint names and role tags as literals, and the model states those literals as lower-cased kind names; ASCII lower-casing: upper-case letters move to lower case, everything else is kept |
| Ascii.Lower | trustfall-openalex-adapter/src/adapter.rs:470-476 | the helper used to state `Starting.PluralName` and `Neighbors.RoleTag`; lower-casing a string keeps its length and lower-cases each character |
| Properties.StrOrNull | trustfall-openalex-adapter/src/adapter.rs:23-27 | `Option<String>` into a field value: `Null` exactly on `None`, otherwise the string |
| Properties.IntOrNull | trustfall-openalex-adapter/src/adapter.rs:30-34 | `Option<u32>` (as in `apc_list_value`) into a field value: `Null` exactly on `None`, otherwise the number |
| Properties.BoolOrNull | trustfall-openalex-adapter/src/adapter.rs:70-74 | `Option<bool>` into a field value: `Null` exactly on `None`, otherwise the boolean |
| Properties.FloatOrNull | trustfall-openalex-adapter/src/adapter.rs:158-165 | `Option<f64>` into a field value (the `Float64`/`Null` match of the mean-citedness properties): `Null` exactly on `None`, otherwise the float |
| Properties.ParseHeaderField | trustfall-openalex-adapter/src/adapter.rs:19-28 | a header property name is accepted only for the header field it names |
| Properties.HeaderFieldNameRoundTrip | trustfall-openalex-adapter/src/adapter.rs:19-28 | the ten header property names are distinct and each names its header field |
| Properties.HeaderValue | trustfall-openalex-adapter/src/adapter.rs:19-28 | a header property conforms to its type; it can panic only for an absent identifier under the unwrapping policy, with the unwrap panic; otherwise an identifier gives its string or `Null` |
| Properties.ParseSummaryField | trustfall-openalex-adapter/src/adapter.rs:158-176 | a summary-statistics property name is accepted only for the summary field it names |
| Properties.SummaryFieldNameRoundTrip | trustfall-openalex-adapter/src/adapter.rs:158-176 | the three summary property names are distinct and each names its summary field |
| Properties.SummaryValue | trustfall-openalex-adapter/src/adapter.rs:158-176 | a summary property conforms to its type and is `Null` when the summary record is absent |
| Properties.ApcEntry | trustfall-openalex-adapter/src/adapter.rs:200 | one `"<price> - <currency>"` entry, which parses back to the price it was made from |
| Properties.ApcEntries | trustfall-openalex-adapter/src/adapter.rs:196-202 | `apc_payment` gives one `"<price> - <currency>"` string per price, in order |
| Properties.ApcEntriesRoundTrip | trustfall-openalex-adapter/src/adapter.rs:196-202 | the whole `apc_payment` list parses back, position by position, to the source's prices |
| Properties.SocietyEntries | trustfall-openalex-adapter/src/adapter.rs:211-217 | `societies` gives one `"<url> - <organization>"` string per society, in order |
| Properties.SocietyEntry | trustfall-openalex-adapter/src/adapter.rs:215 | one entry: the society's URL, then " - ", then its organization, each recoverable by position |
| Properties.PaymentValue | trustfall-openalex-adapter/src/adapter.rs:30-69 | an `apc_list_*` / `apc_payment_*` property conforms to its type and is `Null` when the payment record is absent |
| Properties.LocationValue | trustfall-openalex-adapter/src/adapter.rs:70-94 | a `best_oa_location_*` property conforms to its type and is `Null` when the location is absent |
| Properties.BiblioValue | trustfall-openalex-adapter/src/adapter.rs:95-106 | a `biblio_*` property is a string or `Null`, and is `Null` when the biblio record is absent |
| Properties.OpenAccessValue | trustfall-openalex-adapter/src/adapter.rs:111-130 | an `open_access_*` property conforms to its type and is `Null` when the open-access record is absent |
| Properties.WorkValue | trustfall-openalex-adapter/src/adapter.rs:18-138 | each absent Work sub-record (apc list, apc paid, best location, biblio, open access) gives `Null`, and an identifier gives its string or `Null` |
| Properties.WorkValueConforms | trustfall-openalex-adapter/src/adapter.rs:18-138 | every Work property conforms to its declared type and nullability |
| Properties.ParseWorkField | trustfall-openalex-adapter/src/adapter.rs:19-137 | every name the Work table accepts reads the Work field of that name |
| Properties.ParseWorkSubRecordField | trustfall-openalex-adapter/src/adapter.rs:30-130 | every apc, best-location, biblio or open-access name it accepts reads the sub-record field of that name |
| Properties.ParseWorkOwnField | trustfall-openalex-adapter/src/adapter.rs:29-137 | every name of the Work's own fields that it accepts reads the Work field of that name |
| Properties.GetWorkProperty | trustfall-openalex-adapter/src/adapter.rs:16-141 | it panics with "Vertex was not a work" on another variant and with "Work property …" on an unknown name; otherwise it gives the field's value |
| Properties.AuthorValue | trustfall-openalex-adapter/src/adapter.rs:146-176 | an Author property conforms to its type; absent summary statistics give `Null`; an identifier gives its string or `Null` |
| Properties.ParseAuthorField | trustfall-openalex-adapter/src/adapter.rs:146-176 | every name the Author table accepts reads the Author field of that name |
| Properties.AuthorFieldNameRoundTrip | trustfall-openalex-adapter/src/adapter.rs:146-176 | each Author field is accepted under its own name, so the Author names are distinct |
| Properties.GetAuthorProperty | trustfall-openalex-adapter/src/adapter.rs:143-179 | it panics with "Vertex was not an author" on another variant and with "Author property …" on an unknown name; otherwise it gives the field's value |
| Properties.SourceValue | trustfall-openalex-adapter/src/adapter.rs:184-238 | a Source property panics exactly for an absent identifier (an `unwrap`); otherwise it conforms to its type, absent statistics give `Null`, and `apc_payment` / `societies` are the formatted lists |
| Properties.ParseSourceField | trustfall-openalex-adapter/src/adapter.rs:184-238 | every name the Source table accepts reads the Source field of that name |
| Properties.ParseSourceListField | trustfall-openalex-adapter/src/adapter.rs:195-217 | every list-valued Source name it accepts reads the Source field of that name |
| Properties.ParseSourceScalarField | trustfall-openalex-adapter/src/adapter.rs:184-238 | every other Source name it accepts reads the Source field of that name |
| Properties.GetSourceProperty | trustfall-openalex-adapter/src/adapter.rs:181-241 | it panics with "Vertex was not a source" on another variant and with "Source property …" on an unknown name; otherwise it is the field's outcome |
| Properties.ConceptValue | trustfall-openalex-adapter/src/adapter.rs:246-279 | a Concept property panics exactly for an absent identifier; otherwise it conforms to its type, and absent statistics give `Null` |
| Properties.ParseConceptField | trustfall-openalex-adapter/src/adapter.rs:246-279 | every name the Concept table accepts reads the Concept field of that name |
| Properties.ConceptFieldNameRoundTrip | trustfall-openalex-adapter/src/adapter.rs:246-279 | each Concept field is accepted under its own name, so the Concept names are distinct |
| Properties.GetConceptProperty | trustfall-openalex-adapter/src/adapter.rs:243-282 | it panics with "Vertex was not a concept" on another variant and with "Concept property …" on an unknown name; otherwise it is the field's outcome |
| Properties.InstitutionValue | trustfall-openalex-adapter/src/adapter.rs:287-337 | an Institution property conforms to its type; an absent geo record or absent statistics give `Null`; an identifier gives its string or `Null` |
| Properties.ParseInstitutionField | trustfall-openalex-adapter/src/adapter.rs:289-337 | every name the Institution table accepts reads the Institution field of that name |
| Properties.GetInstitutionProperty | trustfall-openalex-adapter/src/adapter.rs:284-340 | it panics with "Vertex was not an institution" on another variant and with "Institution property …" on an unknown name; otherwise it gives the field's value |
| Properties.PublisherValue | trustfall-openalex-adapter/src/adapter.rs:345-378 | a Publisher property panics exactly for an absent identifier; otherwise it conforms to its type, and absent statistics give `Null` |
| Properties.ParsePublisherField | trustfall-openalex-adapter/src/adapter.rs:345-378 | every name the Publisher table accepts reads the Publisher field of that name |
| Properties.PublisherFieldNameRoundTrip | trustfall-openalex-adapter/src/adapter.rs:345-378 | each Publisher field is accepted under its own name, so the Publisher names are distinct |
| Properties.GetPublisherProperty | trustfall-openalex-adapter/src/adapter.rs:342-381 | it panics with "Vertex was not a publisher" on another variant and with "Publisher property …" on an unknown name; otherwise it is the field's outcome |
| Properties.FunderValue | trustfall-openalex-adapter/src/adapter.rs:386-421 | a Funder property panics exactly for an absent identifier; otherwise it conforms to its type, and absent statistics give `Null` |
| Properties.ParseFunderField | trustfall-openalex-adapter/src/adapter.rs:386-421 | every name the Funder table accepts reads the Funder field of that name |
| Properties.FunderFieldNameRoundTrip | trustfall-openalex-adapter/src/adapter.rs:386-421 | each Funder field is accepted under its own name, so the Funder names are distinct |
| Properties.GetFunderProperty | trustfall-openalex-adapter/src/adapter.rs:383-424 | it panics with "Vertex was not a funder" on another variant and with "Funder property …" on an unknown name; otherwise it is the field's outcome |
| Properties.PropertyMapper | trustfall-openalex-adapter/src/adapter.rs:426-436 | the row is kept; no active vertex gives `Null`; otherwise it succeeds, gives the value and panics exactly as the getter does on the vertex |
| Properties.TypenameValue | trustfall-openalex-adapter/src/adapter.rs:532-541 | `__typename` is the vertex's type name, or `Null` without a vertex |
| Properties.GetProperty | trustfall-openalex-adapter/src/adapter.rs:544-566 | the getter chosen by the type name panics on a vertex of another variant with that table's `expect` message ("Vertex was not a work", "… an author", "… a source", "… a concept", "… an institution", "… a publisher", "… a funder"); on its own variant it panics only by `unreachable!` or by unwrapping, and the Work, Author and Institution getters never unwrap |
| Properties.ResolveProperty | trustfall-openalex-adapter/src/adapter.rs:525-569 | the rows are kept in order and rows without a vertex give `Null`; `__typename` never panics and gives each type name; an unknown type name panics at once with "resolve_property …" |
| Properties.ResolvePropertyRows | trustfall-openalex-adapter/src/adapter.rs:544-565 | for a known type each row's value is that type's getter on the row's vertex, and the stream is complete exactly when no vertex row's getter panics |
| Properties.HeaderInEveryTable | trustfall-openalex-adapter/src/adapter.rs:16-424 | all seven property tables read the shared header fields under the same names |
| Properties.SummaryInEveryTableButWork | trustfall-openalex-adapter/src/adapter.rs:143-424 | every table except Work's reads the three summary-statistics properties under the same names |
| Properties.MissingIdentifierIsNull | trustfall-openalex-adapter/src/adapter.rs:23-27 | on a Work, Author or Institution an absent external identifier reads as `Null` |
| Properties.MissingIdentifierPanics | trustfall-openalex-adapter/src/adapter.rs:188-192 | on a Source, Concept, Publisher or Funder an absent external identifier panics, because it is unwrapped |
| Properties.PresentIdentifier | trustfall-openalex-adapter/src/adapter.rs:16-424 | on every variant a present external identifier reads as its string |
| Neighbors.FetchEach | trustfall-openalex-adapter/src/adapter.rs:590-601 | fetching a list of ids through `filter_map` gives at most one vertex per id |
| Neighbors.FetchEachConcat | trustfall-openalex-adapter/src/adapter.rs:590-601 | fetching a concatenation of id lists is the concatenation of the two fetches, so the order of the ids is kept |
| Neighbors.FetchEachMembers | trustfall-openalex-adapter/src/adapter.rs:590-601 | a vertex is among the neighbours exactly when some id in the list fetches it |
| Neighbors.FetchEachAllSucceed | trustfall-openalex-adapter/src/adapter.rs:590-601 | when every fetch succeeds there is one neighbour per id, in id order |
| Neighbors.FetchEachAllFail | trustfall-openalex-adapter/src/adapter.rs:590-601 | when every fetch fails there are no neighbours, and no panic |
| Neighbors.FetchEachSkipsFailure | trustfall-openalex-adapter/src/adapter.rs:590-601 | a failed fetch in the middle of a list is dropped and its neighbours stay in order |
| Neighbors.FetchEachOfKind | trustfall-openalex-adapter/src/adapter.rs:590-601 | with a well-typed gateway every fetched neighbour has the requested kind |
| Neighbors.FetchOne | trustfall-openalex-adapter/src/adapter.rs:1047-1062 | a single optional id gives at most one neighbour, exactly when there is an id and its fetch succeeds |
| Neighbors.FetchPage | trustfall-openalex-adapter/src/adapter.rs:609-630 | a listing URL gives the fetched page, or no neighbours when the fetch fails |
| Neighbors.FirstRoleId | trustfall-openalex-adapter/src/adapter.rs:1034-1045 | `find_map` over the roles: `None` exactly when no role has the tag, otherwise the id of the first role that has it |
| Neighbors.RoleTag | trustfall-openalex-adapter/src/adapter.rs:1034-1045 | the role tag looked for is the lower-cased schema name of the target kind |
| Neighbors.EdgeNameRoundTrip | trustfall-openalex-adapter/src/adapter.rs:579-1341 | every edge is found under its own name in its owner's match |
| Neighbors.ParseEdgeOf | trustfall-openalex-adapter/src/adapter.rs:579-1341 | an edge found in a kind's match belongs to that kind and carries the name it was found under |
| Neighbors.ParseEdge | trustfall-openalex-adapter/src/adapter.rs:579-1341 | an unknown type panics with "… doesn't fall under a vertex type with edge connections"; an unknown edge of a known type panics with "resolve_neighbors …" |
| Neighbors.ExpectMessage | trustfall-openalex-adapter/src/adapter.rs:579-1341 | every `expect` message starts "vertex was not "; Work, Author and Source edges all say "vertex was not a work"; the Concept, Institution, Publisher and Funder messages end with the owner's lower-case name |
| Neighbors.IdsOf | trustfall-openalex-adapter/src/adapter.rs:638 | the `.map(|x| x.id)` projection: one id per element, in order |
| Neighbors.WorkTarget | trustfall-openalex-adapter/src/adapter.rs:580-743 | each Work edge fetches its target kind in its edge's shape |
| Neighbors.AuthorTarget | trustfall-openalex-adapter/src/adapter.rs:745-798 | each Author edge fetches its target kind in its edge's shape |
| Neighbors.SourceTarget | trustfall-openalex-adapter/src/adapter.rs:800-880 | each Source edge fetches its target kind in its edge's shape |
| Neighbors.ConceptTarget | trustfall-openalex-adapter/src/adapter.rs:882-963 | each Concept edge fetches its target kind in its edge's shape |
| Neighbors.InstitutionTarget | trustfall-openalex-adapter/src/adapter.rs:965-1133 | each Institution edge fetches its target kind in its edge's shape; the Publisher and Funder edges fetch the id of the first role tagged with the target |
| Neighbors.PublisherTarget | trustfall-openalex-adapter/src/adapter.rs:1135-1262 | each Publisher edge fetches its target kind in its edge's shape; the Institution and Funder edges go through the first matching role |
| Neighbors.FunderTarget | trustfall-openalex-adapter/src/adapter.rs:1263-1338 | each Funder edge fetches its target kind in its edge's shape; the Institution and Publisher edges go through the first matching role |
| Neighbors.EdgeTarget | trustfall-openalex-adapter/src/adapter.rs:579-1341 | an edge applies exactly to a vertex of its owner kind, and otherwise panics with that edge's `expect` message; it fetches the edge's target kind in the edge's shape, through the first matching role for role edges |
| Neighbors.Reach | trustfall-openalex-adapter/src/adapter.rs:590-630 | an id list reaches at most one vertex per id; a single id reaches at most one, exactly when it is present and fetches; a listing reaches its whole page, or nothing when the fetch fails |
| Neighbors.ReachOfKind | trustfall-openalex-adapter/src/adapter.rs:579-1341 | with a well-typed gateway every neighbour has the kind the edge fetches |
| Neighbors.NeighborRow | trustfall-openalex-adapter/src/adapter.rs:581-607 | the row is kept; no vertex gives no neighbours; a vertex of another kind panics with the `expect` message |
| Neighbors.ResolveNeighbors | trustfall-openalex-adapter/src/adapter.rs:571-1342 | an unknown type or edge panics at once; otherwise the rows are kept in order, rows without a vertex have no neighbours, and the stream is complete exactly when every vertex row has the edge's owner kind |
| Neighbors.ResolveNeighborsReach | trustfall-openalex-adapter/src/adapter.rs:571-1342 | each produced row with a vertex holds the neighbours the edge reaches from that vertex |
| Neighbors.ResolveNeighborsOfKind | trustfall-openalex-adapter/src/adapter.rs:571-1342 | with a well-typed gateway every neighbour produced has the edge's target kind |
| Coercion.ParseCoercion | trustfall-openalex-adapter/src/adapter.rs:1360-1451 | the handled pairs are exactly the pairs of two distinct kinds among Institution, Publisher and Funder |
| Coercion.RoleNames | trustfall-openalex-adapter/src/adapter.rs:1363-1368 | the collected role tags, one per role, in order |
| Coercion.CanCoerce | trustfall-openalex-adapter/src/adapter.rs:1361-1444 | true exactly when the vertex is of the source kind and some role has the target's tag; a vertex of another variant gives false |
| Coercion.RoleListedIffFound | trustfall-openalex-adapter/src/adapter.rs:1369 | a tag is among the role tags exactly when `find_map` over the roles finds it |
| Coercion.RoleEdge | trustfall-openalex-adapter/src/adapter.rs:1028-1107 | each handled coercion pair has a role edge from the source kind to the target kind |
| Coercion.CoercionMatchesRoleEdge | trustfall-openalex-adapter/src/adapter.rs:1028-1107 | a vertex can be coerced exactly when following the matching role edge has an id to fetch |
| Coercion.CoerceRow | trustfall-openalex-adapter/src/adapter.rs:1354-1455 | the row is kept; no vertex gives false; an unhandled pair panics with the `{:?}` of the pair; otherwise the coercion answer |
| Coercion.DebugPair | trustfall-openalex-adapter/src/adapter.rs:1451 | the `{:?}` of the pair is the two names quoted, comma-separated, in parentheses, each recoverable by position |
| Coercion.DebugPairInjective | trustfall-openalex-adapter/src/adapter.rs:1451 | for names without quotes, the panic message determines the pair |
| Coercion.ResolveCoercion | trustfall-openalex-adapter/src/adapter.rs:1344-1458 | rows are kept in order; a handled pair never panics and answers each row by its role tags; an unhandled pair answers false without a vertex and panics at the first vertex row |
| Starting.PluralName | trustfall-openalex-adapter/src/adapter.rs:469-477 | each endpoint name is the lower-cased kind name with "s" appended |
| Starting.RandomUrl | trustfall-openalex-adapter/src/adapter.rs:467-499 | the random URL is the API base, the lower-cased plural kind name and `/random` |
| Starting.RandomUrlInjective | trustfall-openalex-adapter/src/adapter.rs:467-499 | distinct kinds have distinct random URLs |
| Starting.SearchId | trustfall-openalex-adapter/src/adapter.rs:445-465 | an unknown kind name panics with "Not a valid vertex kind"; otherwise the single fetch at the URL |
| Starting.Random | trustfall-openalex-adapter/src/adapter.rs:467-499 | an unknown kind name panics with "Not a valid vertex kind"; otherwise the single fetch at the random URL |
| Starting.StringParameter | trustfall-openalex-adapter/src/adapter.rs:513-515 | `get(name).and_then(as_str)`: present exactly when the parameter exists and holds a string |
| Starting.ResolveStartingVertices | trustfall-openalex-adapter/src/adapter.rs:505-523 | search by "id" (a missing or non-string id panics at the `unwrap`), a random work, or the "todo" panic for any other entry point |
| Starting.StartingVerticesAreWorks | trustfall-openalex-adapter/src/adapter.rs:505-523 | with a well-typed gateway the starting vertices are at most one, and it is a Work |

## Left out

- The transport and JSON decoding in `fetch.rs` are not modelled. `fetch_vertex` and `fetch_vertices`
  are the two functions of a `Gateway` parameter, and any error result is `None`. `WellTyped` (each
  vertex returned has the requested kind) is a hypothesis, used only where a lemma needs it.
- The `eprintln!` diagnostics on failed fetches and failed coercion casts are not modelled. Only the
  value they return is: no neighbour, or false.
- Laziness is not modelled. The resolvers return iterators that do work as they are pulled; the
  model states what a fully drained iterator holds. `Rows.MapRowsPrefix` relates a partial pull to
  the whole. Each row's neighbour list is its full fetched list.
- Floating-point values (the two-year mean citedness of the summary statistics) are opaque values
  that are carried, never computed with.
- Integer widths are not modelled: `u16`/`u32` counts (among them `apc_usd` and the `Price.price`
  of an apc payment) are `nat`. No operation of the core does arithmetic on them.
- The geo `latitude` and `longitude` are declared `i32` in `vertex.rs`, so they are integers in
  the model (`Option<int>`, optional because `adapter.rs` reads them through `and_then`), and their
  properties are integer-valued. The 32-bit range is not modelled.
- Lifetimes, `clone`, and the `From`/`into` conversions into `FieldValue` are not modelled. Each
  conversion is a function that picks the matching `FieldValue` constructor.
- DebugPair (`Coercion.DebugPair`) gives the `{:?}` rendering of the unhandled pair without Rust's
  escaping of quotes and backslashes inside the names.
- Where the record definitions in `vertex.rs` disagree with the fields `adapter.rs` reads, the
  records follow `adapter.rs`, because that is the code that runs:
  - The sub-records that `adapter.rs` reads through `and_then` are optional, as are their fields:
    apc list/paid, best location, biblio, open access, summary statistics, geo.
  - `ids` is a bundle of optional strings, not a string slice.
  - Author `last_known_institution` and Source `host_organization` are declared non-optional in
    `vertex.rs` but are optional in the model, because the `Institution` and `Host` edges of
    `adapter.rs` match them against `Some`/`None` (adapter.rs:752 and adapter.rs:807).
  - `created_date`/`updated_date` are used, not `created_data`/`updated_data`.
  - The listing URLs are single strings, not slices.
- The Institution `country_codes` property reads the single `country_code` string, as written.
- The property tables name their fields through `Parse…Field` functions, each proved to accept a
  name only for the field it names (`…FieldName`).
- ParseWorkField: does not promise that every Work field is accepted under its name (so that the
  Work names are distinct), because the string comparisons of this large table are too costly for
  the solver. It is proved for the Author, Concept, Publisher and Funder tables and for the shared
  header and summary names.
- ParseSourceField: does not promise that every Source field is accepted under its name, for the
  same reason.
- ParseInstitutionField: does not promise that every Institution field is accepted under its name,
  for the same reason.
- The field types are the schema's types as this model declares them (`Conforms`). The Trustfall
  schema file is not part of this model.
