/** The hard ACL twice: as the predicate CanRead, and compiled into a parameterised WHERE
    fragment by both adapters (positional `?` and numbered `$n`). */
module Access {
  import opened Domain
  import Tables

  /** The principal of a decision. */
  datatype Caller = Caller(id: PrincipalId, spaces: seq<SpaceId>, restricted: bool)

  datatype Filter = Filter(
    principal: PrincipalId, spaces: seq<SpaceId>, restricted: bool, denyTypes: seq<string>, allowPublic: bool)

  /** The part of a node or edge the rule looks at; an edge has no type. */
  datatype Guarded = Guarded(space: SpaceId, owner: PrincipalId, visibility: Visibility, typ: string)

  function GuardOf(row: Tables.EntityRow): Guarded {
    Guarded(row.space, row.owner, row.visibility, row.typ)
  }

  function FilterFor(denyTypes: seq<string>, d: Caller): Filter {
    Filter(d.id, d.spaces, d.restricted, if d.restricted then denyTypes else [], true)
  }

  predicate CanReadUntyped(d: Caller, g: Guarded) {
    match g.visibility
    case Public => true
    case SpaceWide => g.space in d.spaces
    case Private => g.owner == d.id
    case OtherVisibility(_) => false
  }

  predicate CanRead(denyTypes: seq<string>, d: Caller, g: Guarded) {
    !(d.restricted && g.typ in denyTypes) && CanReadUntyped(d, g)
  }

  // ---- the SQL the adapters build ----

  datatype Alias = NodeAlias | EdgeAlias

  datatype Name = IdCol | VisibilityCol | SpaceCol | OwnerCol | TypeCol | FromCol | ToCol | PredicateCol

  datatype Col = Col(alias: Alias, name: Name)

  /** A placeholder: `?`, or `$n` counted from one. */
  datatype Hole = Positional | Numbered(n: nat)

  datatype Sql =
    | EqText(col: Col, text: string)
    | EqHole(col: Col, hole: Hole)
    | InHoles(col: Col, holes: seq<Hole>)
    | NotInHoles(col: Col, holes: seq<Hole>)
    | OtherEnd(id: Col, hole: Hole)
    | And(left: Sql, right: Sql)
    | Or(left: Sql, right: Sql)

  /** The column values of one joined row. */
  type Row = Col -> string

  function VisText(v: Visibility): string {
    match v
    case Public => "public"
    case SpaceWide => "space"
    case Private => "private"
    case OtherVisibility(name) => name
  }

  function Bound(args: seq<string>, i: int): string {
    if 0 <= i < |args| then args[i] else ""
  }

  /** The value a placeholder stands for, when next positional arguments are already used up. */
  function Value(h: Hole, args: seq<string>, next: nat): string {
    if h.Positional? then Bound(args, next) else Bound(args, h.n - 1)
  }

  function Uses(h: Hole): nat {
    if h.Positional? then 1 else 0
  }

  function Values(hs: seq<Hole>, args: seq<string>, next: nat): seq<string> {
    if hs == [] then [] else [Value(hs[0], args, next)] + Values(hs[1..], args, next + Uses(hs[0]))
  }

  function UsesAll(hs: seq<Hole>): nat {
    if hs == [] then 0 else Uses(hs[0]) + UsesAll(hs[1..])
  }

  /** How many positional arguments a fragment consumes. */
  function Consumes(q: Sql): nat {
    match q
    case EqText(_, _) => 0
    case EqHole(_, h) => Uses(h)
    case InHoles(_, hs) => UsesAll(hs)
    case NotInHoles(_, hs) => UsesAll(hs)
    case OtherEnd(_, h) => Uses(h)
    case And(l, r) => Consumes(l) + Consumes(r)
    case Or(l, r) => Consumes(l) + Consumes(r)
  }

  /** Evaluation of a fragment: positional placeholders are bound in textual order. */
  predicate Eval(q: Sql, row: Row, args: seq<string>, next: nat) {
    match q
    case EqText(c, text) => row(c) == text
    case EqHole(c, h) => row(c) == Value(h, args, next)
    case InHoles(c, hs) => row(c) in Values(hs, args, next)
    case NotInHoles(c, hs) => row(c) !in Values(hs, args, next)
    case OtherEnd(id, h) =>
      row(id) == if row(Col(EdgeAlias, FromCol)) == Value(h, args, next)
                 then row(Col(EdgeAlias, ToCol)) else row(Col(EdgeAlias, FromCol))
    case And(l, r) => Eval(l, row, args, next) && Eval(r, row, args, next + Consumes(l))
    case Or(l, r) => Eval(l, row, args, next) || Eval(r, row, args, next + Consumes(l))
  }

  /** What a filter admits, read off one alias of a row. */
  predicate Admits(f: Filter, alias: Alias, gateTypes: bool, row: Row) {
    var vis := row(Col(alias, VisibilityCol));
    && ((f.allowPublic && vis == "public")
        || (vis == "space" && row(Col(alias, SpaceCol)) in f.spaces)
        || (vis == "private" && row(Col(alias, OwnerCol)) == f.principal))
    && !(gateTypes && f.restricted && row(Col(alias, TypeCol)) in f.denyTypes)
  }

  predicate Guards(row: Row, alias: Alias, g: Guarded) {
    && row(Col(alias, VisibilityCol)) == VisText(g.visibility)
    && row(Col(alias, SpaceCol)) == g.space && row(Col(alias, OwnerCol)) == g.owner
    && row(Col(alias, TypeCol)) == g.typ
  }

  lemma VisTexts(v: Visibility)
    requires v.Valid()
    ensures (VisText(v) == "public" <==> v == Public) && (VisText(v) == "space" <==> v == SpaceWide)
            && (VisText(v) == "private" <==> v == Private)
  {
    assert |"public"| == 6 && |"space"| == 5 && |"private"| == 7;
  }

  /** The filter of a decision admits a row exactly when CanRead says so; without the type gate,
      exactly when CanRead without its type test does. */
  lemma FilterIsCanRead(denyTypes: seq<string>, d: Caller, g: Guarded, alias: Alias, row: Row)
    requires Guards(row, alias, g) && g.visibility.Valid()
    ensures Admits(FilterFor(denyTypes, d), alias, true, row) <==> CanRead(denyTypes, d, g)
    ensures Admits(FilterFor(denyTypes, d), alias, false, row) <==> CanReadUntyped(d, g)
  {
    VisTexts(g.visibility);
  }

  // ---- what a compiled fragment means ----

  /** SQLite writes `?`; Postgres numbers on from the arguments it already has. */
  datatype Style = Question | Dollar(have: nat)

  function Skip(style: Style, k: nat): Style {
    if style.Question? then Question else Dollar(style.have + k)
  }

  function HoleOf(style: Style, i: nat): Hole {
    if style.Question? then Positional else Numbered(style.have + i + 1)
  }

  function HolesOf(style: Style, count: nat): seq<Hole> {
    seq(count, i requires 0 <= i < count => HoleOf(style, i))
  }

  /** before is what was bound ahead of the fragment, next what is used up when it is reached. */
  predicate SplicedAt(style: Style, before: seq<string>, next: nat) {
    if style.Question? then next == |before| else style.have == |before|
  }

  /** Wherever the fragment and its arguments are spliced in, it evaluates to v on this row. */
  ghost predicate Means(q: Sql, style: Style, args: seq<string>, row: Row, v: bool) {
    && Consumes(q) == (if style.Question? then |args| else 0)
    && forall before: seq<string>, after: seq<string>, next: nat | SplicedAt(style, before, next) ::
         Eval(q, row, before + args + after, next) == v
  }

  lemma {:induction false} HolesBindArgs(
    style: Style, before: seq<string>, args: seq<string>, after: seq<string>, next: nat)
    requires SplicedAt(style, before, next)
    ensures Values(HolesOf(style, |args|), before + args + after, next) == args
    ensures UsesAll(HolesOf(style, |args|)) == (if style.Question? then |args| else 0)
    decreases |args|
  {
    if args != [] {
      assert before + args + after == (before + [args[0]]) + args[1..] + after;
      var holes, rest := HolesOf(style, |args|), HolesOf(Skip(style, 1), |args| - 1);
      assert holes[1..] == rest;
      HolesBindArgs(Skip(style, 1), before + [args[0]], args[1..], after, next + Uses(holes[0]));
      assert (before + args + after)[|before|] == args[0];
    }
  }

  lemma MeansText(c: Col, text: string, style: Style, row: Row)
    ensures Means(EqText(c, text), style, [], row, row(c) == text)
  {
  }

  lemma MeansHole(c: Col, v: string, style: Style, row: Row)
    ensures Means(EqHole(c, HoleOf(style, 0)), style, [v], row, row(c) == v)
  {
    forall before: seq<string>, after: seq<string>, next: nat | SplicedAt(style, before, next)
      ensures Value(HoleOf(style, 0), before + [v] + after, next) == v
    {
      assert (before + [v] + after)[|before|] == v;
    }
  }

  lemma MeansIn(c: Col, args: seq<string>, style: Style, row: Row)
    ensures Means(InHoles(c, HolesOf(style, |args|)), style, args, row, row(c) in args)
    ensures Means(NotInHoles(c, HolesOf(style, |args|)), style, args, row, row(c) !in args)
  {
    var holes := HolesOf(style, |args|);
    forall before: seq<string>, after: seq<string>, next: nat | SplicedAt(style, before, next)
      ensures Values(holes, before + args + after, next) == args
    {
      HolesBindArgs(style, before, args, after, next);
    }
    var before := seq(if style.Question? then 0 else style.have, i => "");
    HolesBindArgs(style, before, args, [], |before|);
  }

  lemma MeansBoth(l: Sql, la: seq<string>, lv: bool, r: Sql, ra: seq<string>, rv: bool, style: Style, row: Row)
    requires Means(l, style, la, row, lv) && Means(r, Skip(style, |la|), ra, row, rv)
    ensures Means(And(l, r), style, la + ra, row, lv && rv)
    ensures Means(Or(l, r), style, la + ra, row, lv || rv)
  {
    forall before: seq<string>, after: seq<string>, next: nat | SplicedAt(style, before, next)
      ensures Eval(l, row, before + (la + ra) + after, next) == lv
      ensures Eval(r, row, before + (la + ra) + after, next + Consumes(l)) == rv
    {
      assert before + (la + ra) + after == before + la + (ra + after);
      assert before + (la + ra) + after == (before + la) + ra + after;
      assert SplicedAt(Skip(style, |la|), before + la, next + Consumes(l));
    }
  }

  // ---- the access clause ----

  function PublicPart(alias: Alias): Sql {
    EqText(Col(alias, VisibilityCol), "public")
  }

  function SpacePart(f: Filter, alias: Alias, style: Style): Sql {
    And(EqText(Col(alias, VisibilityCol), "space"), InHoles(Col(alias, SpaceCol), HolesOf(style, |f.spaces|)))
  }

  function OwnerPart(f: Filter, alias: Alias, style: Style): Sql {
    And(EqText(Col(alias, VisibilityCol), "private"), EqHole(Col(alias, OwnerCol), HoleOf(style, 0)))
  }

  function Disjoin(ors: seq<Sql>): Sql
    requires ors != []
  {
    if |ors| == 1 then ors[0] else Or(ors[0], Disjoin(ors[1..]))
  }

  function Ors(f: Filter, alias: Alias, style: Style): seq<Sql> {
    (if f.allowPublic then [PublicPart(alias)] else [])
    + ((if f.spaces != [] then [SpacePart(f, alias, style)] else [])
    + [OwnerPart(f, alias, Skip(style, |f.spaces|))])
  }

  function Clause(f: Filter, alias: Alias, gateTypes: bool, style: Style): Sql {
    var ors := Ors(f, alias, style);
    if gateTypes && f.restricted && f.denyTypes != []
    then And(Disjoin(ors), NotInHoles(Col(alias, TypeCol), HolesOf(Skip(style, |f.spaces| + 1), |f.denyTypes|)))
    else Disjoin(ors)
  }

  function ClauseArgs(f: Filter, gateTypes: bool): seq<string> {
    f.spaces + [f.principal] + if gateTypes && f.restricted then f.denyTypes else []
  }

  lemma SpaceMeans(f: Filter, alias: Alias, style: Style, row: Row)
    ensures Means(SpacePart(f, alias, style), style, f.spaces, row,
                  row(Col(alias, VisibilityCol)) == "space" && row(Col(alias, SpaceCol)) in f.spaces)
  {
    var vis := Col(alias, VisibilityCol);
    MeansText(vis, "space", style, row);
    MeansIn(Col(alias, SpaceCol), f.spaces, style, row);
    assert Skip(style, 0) == style && [] + f.spaces == f.spaces;
    MeansBoth(EqText(vis, "space"), [], row(vis) == "space",
              InHoles(Col(alias, SpaceCol), HolesOf(style, |f.spaces|)), f.spaces,
              row(Col(alias, SpaceCol)) in f.spaces, style, row);
  }

  lemma OwnerMeans(f: Filter, alias: Alias, style: Style, row: Row)
    ensures Means(OwnerPart(f, alias, style), style, [f.principal], row,
                  row(Col(alias, VisibilityCol)) == "private" && row(Col(alias, OwnerCol)) == f.principal)
  {
    var vis := Col(alias, VisibilityCol);
    MeansText(vis, "private", style, row);
    MeansHole(Col(alias, OwnerCol), f.principal, style, row);
    assert Skip(style, 0) == style && [] + [f.principal] == [f.principal];
    MeansBoth(EqText(vis, "private"), [], row(vis) == "private",
              EqHole(Col(alias, OwnerCol), HoleOf(style, 0)), [f.principal], row(Col(alias, OwnerCol)) == f.principal,
              style, row);
  }

  lemma ReachableMeans(f: Filter, alias: Alias, style: Style, row: Row)
    ensures Means(Disjoin(Ors(f, alias, style)), style, f.spaces + [f.principal], row, Admits(f, alias, false, row))
  {
    var vis, tail := row(Col(alias, VisibilityCol)), f.spaces + [f.principal];
    var owner := OwnerPart(f, alias, Skip(style, |f.spaces|));
    var mine := vis == "private" && row(Col(alias, OwnerCol)) == f.principal;
    var shared := vis == "space" && row(Col(alias, SpaceCol)) in f.spaces;
    OwnerMeans(f, alias, Skip(style, |f.spaces|), row);
    var q := owner;
    if f.spaces != [] {
      SpaceMeans(f, alias, style, row);
      MeansBoth(SpacePart(f, alias, style), f.spaces, shared, owner, [f.principal], mine, style, row);
      q := Or(SpacePart(f, alias, style), owner);
      assert [SpacePart(f, alias, style), owner][1..] == [owner];
      assert Disjoin([SpacePart(f, alias, style), owner]) == q;
    } else {
      assert Skip(style, 0) == style && tail == [f.principal];
    }
    assert Means(q, style, tail, row, shared || mine);
    if f.allowPublic {
      MeansText(Col(alias, VisibilityCol), "public", style, row);
      assert Skip(style, 0) == style && [] + tail == tail;
      MeansBoth(PublicPart(alias), [], vis == "public", q, tail, shared || mine, style, row);
      var parts := (if f.spaces != [] then [SpacePart(f, alias, style)] else []) + [owner];
      assert ([PublicPart(alias)] + parts)[1..] == parts && Disjoin(parts) == q;
    }
  }

  /** The compiled clause means Admits, in either placeholder style, wherever it is embedded. */
  lemma ClauseMeans(f: Filter, alias: Alias, gateTypes: bool, style: Style, row: Row)
    ensures Means(Clause(f, alias, gateTypes, style), style, ClauseArgs(f, gateTypes), row,
                  Admits(f, alias, gateTypes, row))
  {
    ReachableMeans(f, alias, style, row);
    var reach := f.spaces + [f.principal];
    if gateTypes && f.restricted && f.denyTypes != [] {
      var gate := NotInHoles(Col(alias, TypeCol), HolesOf(Skip(style, |f.spaces| + 1), |f.denyTypes|));
      MeansIn(Col(alias, TypeCol), f.denyTypes, Skip(style, |reach|), row);
      MeansBoth(Disjoin(Ors(f, alias, style)), reach, Admits(f, alias, false, row), gate, f.denyTypes,
                row(Col(alias, TypeCol)) !in f.denyTypes, style, row);
    } else {
      assert ClauseArgs(f, gateTypes) == reach;
    }
  }

  /** Both adapters' clauses, as compiled, agree with CanRead on every row. */
  lemma ClauseIsCanRead(denyTypes: seq<string>, d: Caller, g: Guarded, alias: Alias, style: Style, row: Row)
    requires Guards(row, alias, g) && g.visibility.Valid()
    ensures var f := FilterFor(denyTypes, d);
            && Means(Clause(f, alias, true, style), style, ClauseArgs(f, true), row, CanRead(denyTypes, d, g))
            && Means(Clause(f, alias, false, style), style, ClauseArgs(f, false), row, CanReadUntyped(d, g))
  {
    var f := FilterFor(denyTypes, d);
    FilterIsCanRead(denyTypes, d, g, alias, row);
    ClauseMeans(f, alias, true, style, row);
    ClauseMeans(f, alias, false, style, row);
  }

  method AccessClause(f: Filter, alias: Alias, gateTypes: bool) returns (clause: Sql, args: seq<string>)
    ensures clause == Clause(f, alias, gateTypes, Question) && args == ClauseArgs(f, gateTypes)
  {
    var ors: seq<Sql> := [];
    args := [];
    if f.allowPublic {
      ors := ors + [EqText(Col(alias, VisibilityCol), "public")];
    }
    if |f.spaces| > 0 {
      ors := ors + [And(EqText(Col(alias, VisibilityCol), "space"),
                        InHoles(Col(alias, SpaceCol), seq(|f.spaces|, _ => Positional)))];
      assert seq(|f.spaces|, _ => Positional) == HolesOf(Question, |f.spaces|);
      for i := 0 to |f.spaces|
        invariant args == f.spaces[..i]
      {
        args := args + [f.spaces[i]];
      }
    }
    assert args == f.spaces;
    ors := ors + [And(EqText(Col(alias, VisibilityCol), "private"), EqHole(Col(alias, OwnerCol), Positional))];
    args := args + [f.principal];
    assert ors == Ors(f, alias, Question);
    clause := Disjoin(ors);
    if gateTypes && f.restricted && |f.denyTypes| > 0 {
      clause := And(clause, NotInHoles(Col(alias, TypeCol), seq(|f.denyTypes|, _ => Positional)));
      assert seq(|f.denyTypes|, _ => Positional) == HolesOf(Question, |f.denyTypes|);
      for i := 0 to |f.denyTypes|
        invariant args == f.spaces + [f.principal] + f.denyTypes[..i]
      {
        args := args + [f.denyTypes[i]];
      }
      assert f.denyTypes[..|f.denyTypes|] == f.denyTypes;
    }
  }

  // ---- Postgres: numbered placeholders over a growing argument list ----

  class ArgList {
    var vals: seq<string>

    constructor ()
      ensures vals == []
    {
      vals := [];
    }

    method Add(v: string) returns (h: Hole)
      modifies this
      ensures vals == old(vals) + [v] && h == Numbered(|vals|)
    {
      vals := vals + [v];
      h := Numbered(|vals|);
    }

    method AddAll(vs: seq<string>) returns (hs: seq<Hole>)
      modifies this
      ensures vals == old(vals) + vs && hs == HolesOf(Dollar(|old(vals)|), |vs|)
    {
      hs := [];
      for i := 0 to |vs|
        invariant vals == old(vals) + vs[..i] && hs == HolesOf(Dollar(|old(vals)|), i)
      {
        var h := Add(vs[i]);
        hs := hs + [h];
      }
    }

    method AccessClause(f: Filter, alias: Alias, gateTypes: bool) returns (clause: Sql)
      modifies this
      ensures vals == old(vals) + ClauseArgs(f, gateTypes)
      ensures clause == Clause(f, alias, gateTypes, Dollar(|old(vals)|))
    {
      var ors: seq<Sql> := [];
      if f.allowPublic {
        ors := ors + [EqText(Col(alias, VisibilityCol), "public")];
      }
      if |f.spaces| > 0 {
        var holes := AddAll(f.spaces);
        ors := ors + [And(EqText(Col(alias, VisibilityCol), "space"), InHoles(Col(alias, SpaceCol), holes))];
      }
      assert vals == old(vals) + f.spaces;
      var owner := Add(f.principal);
      ors := ors + [And(EqText(Col(alias, VisibilityCol), "private"), EqHole(Col(alias, OwnerCol), owner))];
      assert ors == Ors(f, alias, Dollar(|old(vals)|));
      clause := Disjoin(ors);
      if gateTypes && f.restricted && |f.denyTypes| > 0 {
        var denied := AddAll(f.denyTypes);
        clause := And(clause, NotInHoles(Col(alias, TypeCol), denied));
      }
    }
  }

  // ---- the incident-edge query ----

  /** The joined rows the traversal asks for: an edge touching the node, joined to its far end,
      edge and far end both admitted, and of a wanted predicate. */
  predicate Incident(f: Filter, node: EntityId, predicates: seq<string>, row: Row) {
    var from, to := row(Col(EdgeAlias, FromCol)), row(Col(EdgeAlias, ToCol));
    && row(Col(NodeAlias, IdCol)) == (if from == node then to else from)
    && (from == node || to == node)
    && Admits(f, EdgeAlias, false, row) && Admits(f, NodeAlias, true, row)
    && (predicates == [] || row(Col(EdgeAlias, PredicateCol)) in predicates)
  }

  const FROM: Col := Col(EdgeAlias, FromCol)
  const TO: Col := Col(EdgeAlias, ToCol)
  const OTHER: Col := Col(NodeAlias, IdCol)

  /** Everything after the join and the two endpoint tests. */
  function FilterTail(f: Filter, predicates: seq<string>, style: Style): Sql {
    var edge := Clause(f, EdgeAlias, false, style);
    var node := Clause(f, NodeAlias, true, Skip(style, |ClauseArgs(f, false)|));
    if predicates == [] then And(edge, node)
    else And(And(edge, node), InHoles(Col(EdgeAlias, PredicateCol),
             HolesOf(Skip(style, |ClauseArgs(f, false)| + |ClauseArgs(f, true)|), |predicates|)))
  }

  function TailArgs(f: Filter, predicates: seq<string>): seq<string> {
    ClauseArgs(f, false) + ClauseArgs(f, true) + predicates
  }

  lemma TailMeans(f: Filter, predicates: seq<string>, style: Style, row: Row)
    ensures Means(FilterTail(f, predicates, style), style, TailArgs(f, predicates), row,
                  Admits(f, EdgeAlias, false, row) && Admits(f, NodeAlias, true, row)
                  && (predicates == [] || row(Col(EdgeAlias, PredicateCol)) in predicates))
  {
    var ea, na := ClauseArgs(f, false), ClauseArgs(f, true);
    var edge, node := Clause(f, EdgeAlias, false, style), Clause(f, NodeAlias, true, Skip(style, |ea|));
    var ev, nv := Admits(f, EdgeAlias, false, row), Admits(f, NodeAlias, true, row);
    ClauseMeans(f, EdgeAlias, false, style, row);
    ClauseMeans(f, NodeAlias, true, Skip(style, |ea|), row);
    MeansBoth(edge, ea, ev, node, na, nv, style, row);
    if predicates == [] {
      assert TailArgs(f, predicates) == ea + na;
    } else {
      MeansIn(Col(EdgeAlias, PredicateCol), predicates, Skip(style, |ea + na|), row);
      MeansBoth(And(edge, node), ea + na, ev && nv,
                InHoles(Col(EdgeAlias, PredicateCol), HolesOf(Skip(style, |ea + na|), |predicates|)), predicates,
                row(Col(EdgeAlias, PredicateCol)) in predicates, style, row);
    }
  }

  /** The join and the endpoint tests, given the placeholders of the three uses of the node. */
  function Head(h1: Hole, h2: Hole, h3: Hole): Sql {
    And(OtherEnd(OTHER, h1), Or(EqHole(FROM, h2), EqHole(TO, h3)))
  }

  lemma IncidentMeans(
    f: Filter, node: EntityId, predicates: seq<string>, style: Style, head: Sql, bound: seq<string>, next: nat,
    row: Row)
    requires SplicedAt(style, bound, next) && Consumes(head) == next
    requires Eval(head, row, bound + TailArgs(f, predicates), 0) <==>
             row(OTHER) == (if row(FROM) == node then row(TO) else row(FROM)) && (row(FROM) == node || row(TO) == node)
    ensures Eval(And(head, FilterTail(f, predicates, style)), row, bound + TailArgs(f, predicates), 0)
            == Incident(f, node, predicates, row)
  {
    TailMeans(f, predicates, style, row);
    assert bound + TailArgs(f, predicates) == bound + TailArgs(f, predicates) + [];
    assert Eval(FilterTail(f, predicates, style), row, bound + TailArgs(f, predicates) + [], next) ==
           (Admits(f, EdgeAlias, false, row) && Admits(f, NodeAlias, true, row)
            && (predicates == [] || row(Col(EdgeAlias, PredicateCol)) in predicates));
  }

  lemma SqliteHeadMeans(node: EntityId, rest: seq<string>, row: Row)
    ensures Consumes(Head(Positional, Positional, Positional)) == 3
    ensures Eval(Head(Positional, Positional, Positional), row, [node, node, node] + rest, 0) <==>
            row(OTHER) == (if row(FROM) == node then row(TO) else row(FROM)) && (row(FROM) == node || row(TO) == node)
  {
    var args := [node, node, node] + rest;
    assert args[0] == node && args[1] == node && args[2] == node;
    assert Eval(EqHole(FROM, Positional), row, args, 1) <==> row(FROM) == node;
    assert Eval(EqHole(TO, Positional), row, args, 2) <==> row(TO) == node;
    assert Consumes(OtherEnd(OTHER, Positional)) == 1 && Consumes(EqHole(FROM, Positional)) == 1;
    assert Eval(Or(EqHole(FROM, Positional), EqHole(TO, Positional)), row, args, 1)
      <==> row(FROM) == node || row(TO) == node;
  }

  lemma PostgresHeadMeans(node: EntityId, rest: seq<string>, row: Row)
    ensures Consumes(Head(Numbered(1), Numbered(1), Numbered(1))) == 0
    ensures Eval(Head(Numbered(1), Numbered(1), Numbered(1)), row, [node] + rest, 0) <==>
            row(OTHER) == (if row(FROM) == node then row(TO) else row(FROM)) && (row(FROM) == node || row(TO) == node)
  {
    var args := [node] + rest;
    assert args[0] == node && Value(Numbered(1), args, 0) == node;
    assert Eval(Or(EqHole(FROM, Numbered(1)), EqHole(TO, Numbered(1))), row, args, 0)
      <==> row(FROM) == node || row(TO) == node;
  }

  function SqliteQuery(f: Filter, predicates: seq<string>): Sql {
    And(Head(Positional, Positional, Positional), FilterTail(f, predicates, Question))
  }

  function PostgresQuery(f: Filter, predicates: seq<string>): Sql {
    And(Head(Numbered(1), Numbered(1), Numbered(1)), FilterTail(f, predicates, Dollar(1)))
  }

  lemma SqliteQueryMeans(f: Filter, node: EntityId, predicates: seq<string>, row: Row)
    ensures Eval(SqliteQuery(f, predicates), row, [node, node, node] + TailArgs(f, predicates), 0)
            == Incident(f, node, predicates, row)
  {
    SqliteHeadMeans(node, TailArgs(f, predicates), row);
    IncidentMeans(f, node, predicates, Question, Head(Positional, Positional, Positional), [node, node, node], 3, row);
  }

  lemma PostgresQueryMeans(f: Filter, node: EntityId, predicates: seq<string>, row: Row)
    ensures Eval(PostgresQuery(f, predicates), row, [node] + TailArgs(f, predicates), 0)
            == Incident(f, node, predicates, row)
  {
    PostgresHeadMeans(node, TailArgs(f, predicates), row);
    IncidentMeans(f, node, predicates, Dollar(1), Head(Numbered(1), Numbered(1), Numbered(1)), [node], 0, row);
  }

  /** Each query consumes exactly the positional arguments it is given. */
  lemma QueriesConsume(f: Filter, node: EntityId, predicates: seq<string>)
    ensures Consumes(SqliteQuery(f, predicates)) == |[node, node, node] + TailArgs(f, predicates)|
    ensures Consumes(PostgresQuery(f, predicates)) == 0
  {
    SqliteHeadMeans(node, [], _ => "");
    PostgresHeadMeans(node, [], _ => "");
    TailMeans(f, predicates, Question, _ => "");
    TailMeans(f, predicates, Dollar(1), _ => "");
  }

  /** The query and its arguments select exactly the incident rows. */
  ghost predicate Selects(q: Sql, args: seq<string>, f: Filter, node: EntityId, predicates: seq<string>) {
    forall row: Row :: Eval(q, row, args, 0) == Incident(f, node, predicates, row)
  }

  lemma QueriesSelect(f: Filter, node: EntityId, predicates: seq<string>)
    ensures Selects(SqliteQuery(f, predicates), [node, node, node] + TailArgs(f, predicates), f, node, predicates)
    ensures Selects(PostgresQuery(f, predicates), [node] + TailArgs(f, predicates), f, node, predicates)
  {
    forall row: Row
      ensures Eval(SqliteQuery(f, predicates), row, [node, node, node] + TailArgs(f, predicates), 0)
              == Incident(f, node, predicates, row)
    {
      SqliteQueryMeans(f, node, predicates, row);
    }
    forall row: Row
      ensures Eval(PostgresQuery(f, predicates), row, [node] + TailArgs(f, predicates), 0)
              == Incident(f, node, predicates, row)
    {
      PostgresQueryMeans(f, node, predicates, row);
    }
  }

  /** The SQLite query, its node bound three times. */
  method SqliteIncidentQuery(f: Filter, node: EntityId, predicates: seq<string>) returns (q: Sql, args: seq<string>)
    ensures Selects(q, args, f, node, predicates) && Consumes(q) == |args|
  {
    var edgeWhere, edgeArgs := AccessClause(f, EdgeAlias, false);
    var nodeWhere, nodeArgs := AccessClause(f, NodeAlias, true);
    args := [node, node, node];
    args := args + edgeArgs;
    args := args + nodeArgs;
    var tail := And(edgeWhere, nodeWhere);
    if |predicates| > 0 {
      tail := And(tail, InHoles(Col(EdgeAlias, PredicateCol), seq(|predicates|, _ => Positional)));
      assert seq(|predicates|, _ => Positional) == HolesOf(Question, |predicates|);
      for i := 0 to |predicates|
        invariant args == [node, node, node] + edgeArgs + nodeArgs + predicates[..i]
      {
        args := args + [predicates[i]];
      }
      assert predicates[..|predicates|] == predicates;
    }
    q := And(And(OtherEnd(OTHER, Positional), Or(EqHole(FROM, Positional), EqHole(TO, Positional))), tail);
    assert q == SqliteQuery(f, predicates) && args == [node, node, node] + TailArgs(f, predicates);
    QueriesConsume(f, node, predicates);
    QueriesSelect(f, node, predicates);
  }

  /** The Postgres query, its node bound once and named three times. */
  method PostgresIncidentQuery(f: Filter, node: EntityId, predicates: seq<string>) returns (q: Sql, args: seq<string>)
    ensures Selects(q, args, f, node, predicates) && Consumes(q) == 0
  {
    q, args := NumberedQuery(f, node, predicates);
    QueriesConsume(f, node, predicates);
    QueriesSelect(f, node, predicates);
  }

  method NumberedQuery(f: Filter, node: EntityId, predicates: seq<string>) returns (q: Sql, args: seq<string>)
    ensures q == PostgresQuery(f, predicates) && args == [node] + TailArgs(f, predicates)
  {
    var ab := new ArgList();
    var n := ab.Add(node);
    var edgeWhere := ab.AccessClause(f, EdgeAlias, false);
    var nodeWhere := ab.AccessClause(f, NodeAlias, true);
    var tail := And(edgeWhere, nodeWhere);
    if |predicates| > 0 {
      var holes := ab.AddAll(predicates);
      tail := And(tail, InHoles(Col(EdgeAlias, PredicateCol), holes));
    }
    args := ab.vals;
    q := And(And(OtherEnd(OTHER, n), Or(EqHole(FROM, n), EqHole(TO, n))), tail);
    assert tail == FilterTail(f, predicates, Dollar(1));
  }
}
