/** Type coercion (`resolve_coercion`): whether an Institution, Publisher or
    Funder vertex may also be seen as one of the other two, decided by the
    tags of its role list. */
module Coercion {
  import opened Wrappers
  import opened Vertices
  import opened Rows
  import opened Neighbors

  /** The kinds that carry a role list. */
  const RoleKinds: set<VertexKind> := {VertexKind.Institution, VertexKind.Publisher, VertexKind.Funder}

  /** The six handled (type, coerce-to) pairs: two distinct role-carrying kinds. */
  function ParseCoercion(typeName: string, coerceTo: string): (r: Option<(VertexKind, VertexKind)>)
    ensures r.Some? <==>
      && KindNamed(typeName).Some? && KindNamed(coerceTo).Some?
      && KindNamed(typeName).value in RoleKinds && KindNamed(coerceTo).value in RoleKinds
      && KindNamed(typeName).value != KindNamed(coerceTo).value
    ensures r.Some? ==> r.value == (KindNamed(typeName).value, KindNamed(coerceTo).value)
  {
    match (KindNamed(typeName), KindNamed(coerceTo))
    case (Some(from), Some(to)) =>
      if from in RoleKinds && to in RoleKinds && from != to then Some((from, to)) else None
    case _ => None
  }

  /** The tags of a role list, in order. */
  function RoleNames(roles: seq<Role>): (r: seq<string>)
    ensures |r| == |roles|
    ensures forall i :: 0 <= i < |roles| ==> r[i] == roles[i].role
  {
    seq(|roles|, i requires 0 <= i < |roles| => roles[i].role)
  }

  /** Whether `v`, read as a `from`, carries the role tag of `to`. A vertex of
      another variant cannot be coerced. */
  function CanCoerce(v: Vertex, from: VertexKind, to: VertexKind): (r: bool)
    requires from in RoleKinds
    ensures r <==> KindOf(v) == from && RoleTag(to) in RoleNames(Roles(v).value)
  {
    match from
    case Institution =>
      (match AsInstitution(v)
       case Some(i) => RoleTag(to) in RoleNames(i.roles)
       case None => false)
    case Publisher =>
      (match AsPublisher(v)
       case Some(p) => RoleTag(to) in RoleNames(p.roles)
       case None => false)
    case Funder =>
      (match AsFunder(v)
       case Some(f) => RoleTag(to) in RoleNames(f.roles)
       case None => false)
  }

  /** A role list lists a tag exactly when looking the tag up finds an identifier. */
  lemma {:induction false} RoleListedIffFound(roles: seq<Role>, tag: string)
    ensures tag in RoleNames(roles) <==> FirstRoleId(roles, tag).Some?
  {
    if tag in RoleNames(roles) {
      var i :| 0 <= i < |roles| && RoleNames(roles)[i] == tag;
      assert roles[i].role == tag;
    }
  }

  /** The role-indirected edge from `from` to `to`. */
  function RoleEdge(from: VertexKind, to: VertexKind): (e: Edge)
    requires from in RoleKinds && to in RoleKinds && from != to
    ensures e.ViaRole() && EdgeOwner(e) == from && EdgeTargetKind(e) == to
  {
    match (from, to)
    case (Institution, Publisher) => InstitutionPublisher
    case (Institution, Funder) => InstitutionFunder
    case (Publisher, Institution) => PublisherInstitution
    case (Publisher, Funder) => PublisherFunder
    case (Funder, Institution) => FunderInstitution
    case (Funder, Publisher) => FunderPublisher
  }

  /** Coercion and the role edges agree: a vertex can be coerced from `from` to
      `to` exactly when the edge from `from` to `to` has an identifier to fetch. */
  lemma CoercionMatchesRoleEdge(v: Vertex, from: VertexKind, to: VertexKind)
    requires from in RoleKinds && to in RoleKinds && from != to
    requires KindOf(v) == from
    ensures EdgeTarget(RoleEdge(from, to), v).Ok?
    ensures CanCoerce(v, from, to) <==> EdgeTarget(RoleEdge(from, to), v).value.id.Some?
  {
    RoleListedIffFound(Roles(v).value, RoleTag(to));
  }

  /** The `{:?}` rendering of the unhandled (type, coerce-to) pair: both names
      quoted, separated by a comma, in parentheses. */
  function DebugPair(typeName: string, coerceTo: string): (r: string)
    ensures |r| == |typeName| + |coerceTo| + 8
    ensures r[..2] == "(\"" && r[|r| - 2..] == "\")"
    ensures r[2..|typeName| + 2] == typeName && r[|typeName| + 2..|typeName| + 6] == "\", \""
    ensures r[|typeName| + 6..|r| - 2] == coerceTo
  {
    "(\"" + typeName + "\", \"" + coerceTo + "\")"
  }

  /** Names without a quote character can be read back from the rendering, so
      the panic message identifies the pair it was raised for. */
  lemma DebugPairInjective(t1: string, c1: string, t2: string, c2: string)
    requires '"' !in t1 && '"' !in t2
    requires DebugPair(t1, c1) == DebugPair(t2, c2)
    ensures t1 == t2 && c1 == c2
  {
    var r := DebugPair(t1, c1);
    assert r[|t1| + 2] == '"' && r[|t2| + 2] == '"';
  }

  /** One row of `resolve_coercion`: false without an active vertex; for a
      handled pair whether the vertex can be coerced; otherwise a panic. */
  function CoerceRow(typeName: string, coerceTo: string, ctx: Context): (r: Fallible<(Context, bool)>)
    ensures r.Ok? ==> r.value.0 == ctx
    ensures ctx.activeVertex.None? ==> r == Ok((ctx, false))
    ensures ctx.activeVertex.Some? ==> (r.Ok? <==> ParseCoercion(typeName, coerceTo).Some?)
    ensures ctx.activeVertex.Some? && r.Panicked? ==> r.panic == Unreachable(DebugPair(typeName, coerceTo))
    ensures ctx.activeVertex.Some? && r.Ok? ==>
      r.value.1 == CanCoerce(ctx.activeVertex.value, ParseCoercion(typeName, coerceTo).value.0,
                             ParseCoercion(typeName, coerceTo).value.1)
  {
    match ctx.activeVertex
    case None => Ok((ctx, false))
    case Some(v) =>
      match ParseCoercion(typeName, coerceTo)
      case None => Panicked(Unreachable(DebugPair(typeName, coerceTo)))
      case Some(pair) => Ok((ctx, CanCoerce(v, pair.0, pair.1)))
  }

  function CoerceStep(typeName: string, coerceTo: string): Context -> Fallible<(Context, bool)>
  {
    ctx => CoerceRow(typeName, coerceTo, ctx)
  }

  /** `resolve_coercion`, drained. A handled pair never panics and answers, row
      by row, whether the active vertex has the target's role; an unhandled pair
      answers false for rows without a vertex and panics at the first row with
      one. */
  function ResolveCoercion(contexts: seq<Context>, typeName: string, coerceTo: string)
    : (r: Stream<(Context, bool)>)
    ensures |r.items| <= |contexts|
    ensures forall i :: 0 <= i < |r.items| ==> r.items[i].0 == contexts[i]
    ensures forall i :: 0 <= i < |r.items| && contexts[i].activeVertex.None? ==> !r.items[i].1
    ensures ParseCoercion(typeName, coerceTo).Some? ==> r.halt.None? && |r.items| == |contexts|
    ensures ParseCoercion(typeName, coerceTo).Some? ==>
      forall i :: 0 <= i < |r.items| ==>
        (r.items[i].1 <==> contexts[i].activeVertex.Some?
                           && CanCoerce(contexts[i].activeVertex.value, ParseCoercion(typeName, coerceTo).value.0,
                                        ParseCoercion(typeName, coerceTo).value.1))
    ensures ParseCoercion(typeName, coerceTo).None? ==>
      (r.halt.None? <==> forall i :: 0 <= i < |contexts| ==> contexts[i].activeVertex.None?)
    ensures ParseCoercion(typeName, coerceTo).None? ==> forall i :: 0 <= i < |r.items| ==> !r.items[i].1
    ensures r.halt.Some? ==> r.halt.value == Unreachable(DebugPair(typeName, coerceTo))
  {
    MapRowsComplete(contexts, CoerceStep(typeName, coerceTo));
    MapRows(contexts, CoerceStep(typeName, coerceTo))
  }
}
