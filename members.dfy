/** What every generated method looks like, family by family: query methods
    are `get...` methods returning `<Shape><List<Entity>>`, internal ones are
    protected abstract `@Query` methods, public ones are dispatchers that
    forward into their own block; the native mutations and the effect of
    `@Relation` on them. */
module Members {
  import opened Types
  import opened Seqs
  import opened Naming
  import opened Descriptors
  import opened AutoDaoParams
  import opened NativeRoomFunctions
  import opened Functions
  import opened Dispatch
  import opened Layout

  predicate StartsWithGet(name: string) {
    |name| >= 3 && name[0] == 'g' && name[1] == 'e' && name[2] == 't'
  }

  /** A query method of shape `s`. Internal methods are protected, abstract,
      `@Query`-annotated, `@Transaction` exactly when the entity has relations.
      Dispatchers are public, take `limit = 0`, and take `autoThread` (last)
      and are wrapped exactly when the shape is Single or Maybe. */
  predicate QueryMethod(p: DaoParams, s: Shape, f: FunSpec) {
    && StartsWithGet(f.name)
    && f.returnType == ListResult(p, s)
    && (f.isAbstract ==>
          && f.isProtected && f.annotation.QueryAnn? && f.routes == [] && !f.autoThreadWrap
          && f.transaction == p.containsRelationAnnotation)
    && (!f.isAbstract ==>
          && !f.isProtected && f.annotation == NoAnn && !f.transaction && f.routes != []
          && LimitDefaultParam in f.params
          && f.autoThreadWrap == AutoThreaded(s)
          && (AutoThreaded(s) ==> f.params[|f.params| - 1] == AutoThreadParam)
          && (!AutoThreaded(s) ==> AutoThreadParam !in f.params))
  }

  // ---------------------------------------------------------------------------
  // Public names and the auto-thread parameter
  // ---------------------------------------------------------------------------

  /** The public name is the bare base exactly for the default shape, and
      `<base>As<Shape>` for every other shape. */
  lemma PublicNameRule(p: DaoParams, s: Shape, base: string)
    ensures PublicName(p, s, base) == base <==> p.defaultReturnType == s
    ensures p.defaultReturnType != s ==> PublicName(p, s, base) == base + "As" + ShapeName(s)
  {
    if p.defaultReturnType != s {
      assert |PublicName(p, s, base)| >= |base| + 2;
    }
  }

  /** Within one family, two recognised shapes never get the same public name. */
  lemma PublicNamesDistinct(p: DaoParams, s1: Shape, s2: Shape, base: string)
    requires Supported(s1) && Supported(s2) && s1 != s2
    ensures PublicName(p, s1, base) != PublicName(p, s2, base)
  {
    PublicNameRule(p, s1, base);
    PublicNameRule(p, s2, base);
    var x1, x2 := base + "As" + ShapeName(s1), base + "As" + ShapeName(s2);
    assert x1[|base| + 2..] == ShapeName(s1) && x2[|base| + 2..] == ShapeName(s2);
    assert ShapeName(s1) != ShapeName(s2);
  }

  /** The four public names of a shape: `getAll`, `getAllOrderedBy<A>`,
      `getBy<A>` and `getBy<A>OrderedBy<B>`, bare exactly for the default shape. */
  lemma DispatcherNames(p: DaoParams, s: Shape, a: Attr, b: Attr)
    ensures GetAllDispatcher(p, s).name == "getAll" <==> p.defaultReturnType == s
    ensures GetAllOrderedByDispatcher(p, s, a).name == "getAllOrderedBy" + Capitalize(a.name) <==> p.defaultReturnType == s
    ensures GetByDispatcher(p, s, a).name == "getBy" + Capitalize(a.name) <==> p.defaultReturnType == s
    ensures GetByOrderedByDispatcher(p, s, a, b).name == "getBy" + Capitalize(a.name) + "OrderedBy" + Capitalize(b.name)
        <==> p.defaultReturnType == s
  {
    PublicNameRule(p, s, "getAll");
    PublicNameRule(p, s, "getAllOrderedBy" + Capitalize(a.name));
    PublicNameRule(p, s, GetByAttrName(a));
    PublicNameRule(p, s, GetByAttrOrderByName(a, b));
  }

  lemma PublicNameStartsWithGet(p: DaoParams, s: Shape, base: string)
    requires StartsWithGet(base)
    ensures StartsWithGet(PublicName(p, s, base))
  {
  }

  /** A dispatcher built over `params` that do not already hold `autoThread`. */
  lemma DispatcherThreading(p: DaoParams, name: string, params: seq<Param>, s: Shape, routes: seq<Route>)
    requires AutoThreadParam !in params
    ensures var f := Dispatcher(p, name, params, s, routes);
      && f.autoThreadWrap == AutoThreaded(s)
      && (AutoThreaded(s) ==> f.params == params + [AutoThreadParam])
      && (!AutoThreaded(s) ==> f.params == params && AutoThreadParam !in f.params)
  {
  }

  // ---------------------------------------------------------------------------
  // Groups and blocks
  // ---------------------------------------------------------------------------

  /** What a block member satisfies: a query method of the block's shape which,
      if it is a dispatcher, forwards only into the block. */
  predicate BlockMember(p: DaoParams, s: Shape, f: FunSpec, block: seq<FunSpec>) {
    QueryMethod(p, s, f) && (!f.isAbstract ==> ForwardsInto(f, block))
  }

  /** A group whose members are query methods and whose dispatchers forward
      into it is closed: each member is a block member of the group. */
  lemma ClosedGroup(p: DaoParams, s: Shape, group: seq<FunSpec>)
    requires forall f | f in group :: QueryMethod(p, s, f)
    requires forall f | f in group && !f.isAbstract :: ForwardsInto(f, group)
    ensures forall f | f in group :: BlockMember(p, s, f, group)
  {
  }

  lemma GetAllGroupMembers(p: DaoParams, s: Shape)
    ensures forall f | f in GetAllGroup(p, s) :: BlockMember(p, s, f, GetAllGroup(p, s))
  {
    var group := GetAllGroup(p, s);
    assert StartsWithGet("getAllAs" + ShapeName(s) + "_");
    PublicNameStartsWithGet(p, s, "getAll");
    assert forall f | f in group :: QueryMethod(p, s, f);
    GetAllGroupShape(p, s);
    PlainGroupForwards(group, [], []);
    ClosedGroup(p, s, group);
  }

  lemma StartsWithGetAppend(x: string, y: string)
    requires StartsWithGet(x)
    ensures StartsWithGet(x + y)
  {
  }

  /** An internal method whose name starts with `get` is a query method,
      whatever its parameters and text. */
  lemma InternalQueryMethod(p: DaoParams, s: Shape, name: string)
    requires StartsWithGet(name)
    ensures forall params, sql :: QueryMethod(p, s, Internal(p, name, params, s, sql))
  {
  }

  /** The four internal methods `<priv>Asc_` and `<priv>Desc_`. */
  lemma OrderedInternalsQueryMethods(p: DaoParams, s: Shape, priv: string)
    requires StartsWithGet(priv)
    ensures forall params, sql :: QueryMethod(p, s, Internal(p, priv + OrderSuffix(ASC) + "_", params, s, sql))
    ensures forall params, sql :: QueryMethod(p, s, Internal(p, priv + OrderSuffix(DESC) + "_", params, s, sql))
  {
    StartsWithGetAppend(priv, OrderSuffix(ASC));
    StartsWithGetAppend(priv + OrderSuffix(ASC), "_");
    StartsWithGetAppend(priv, OrderSuffix(DESC));
    StartsWithGetAppend(priv + OrderSuffix(DESC), "_");
    InternalQueryMethod(p, s, priv + OrderSuffix(ASC) + "_");
    InternalQueryMethod(p, s, priv + OrderSuffix(DESC) + "_");
  }

  /** A dispatcher whose name starts with `get`, whose parameters hold
      `limit = 0` but not `autoThread`, and which has a branch, is a query
      method. */
  lemma DispatcherQueryMethod(p: DaoParams, s: Shape, name: string, params: seq<Param>)
    requires StartsWithGet(name) && LimitDefaultParam in params && AutoThreadParam !in params
    ensures forall routes | routes != [] :: QueryMethod(p, s, Dispatcher(p, name, params, s, routes))
  {
  }

  lemma GetAllOrderByGroupQueryMethods(p: DaoParams, s: Shape, a: Attr)
    ensures forall f | f in GetAllOrderByGroup(p, s, a) :: QueryMethod(p, s, f)
  {
    var priv := GetAllOrderByName(a, s);
    assert StartsWithGet(priv);
    OrderedInternalsQueryMethods(p, s, priv);
    var base := "getAllOrderedBy" + Capitalize(a.name);
    assert StartsWithGet(base);
    PublicNameStartsWithGet(p, s, base);
    DispatcherQueryMethod(p, s, PublicName(p, s, base), [LimitDefaultParam, OrderDefaultParam]);
  }

  lemma GetAllOrderByGroupMembers(p: DaoParams, s: Shape, a: Attr)
    ensures forall f | f in GetAllOrderByGroup(p, s, a) :: BlockMember(p, s, f, GetAllOrderByGroup(p, s, a))
  {
    GetAllOrderByGroupQueryMethods(p, s, a);
    GetAllOrderByGroupShape(p, s, a);
    OrderedGroupForwards(GetAllOrderByGroup(p, s, a), [], []);
    ClosedGroup(p, s, GetAllOrderByGroup(p, s, a));
  }

  lemma GetByGroupQueryMethods(p: DaoParams, s: Shape, a: Attr)
    ensures forall f | f in GetByGroup(p, s, a) :: QueryMethod(p, s, f)
  {
    var base := GetByAttrName(a);
    assert StartsWithGet(base);
    StartsWithGetAppend(base, "As");
    StartsWithGetAppend(base + "As", ShapeName(s));
    StartsWithGetAppend(base + "As" + ShapeName(s), "_");
    InternalQueryMethod(p, s, base + "As" + ShapeName(s) + "_");
    PublicNameStartsWithGet(p, s, base);
    DispatcherQueryMethod(p, s, PublicName(p, s, base), [ValuesParam(a), LimitDefaultParam]);
  }

  lemma GetByGroupMembers(p: DaoParams, s: Shape, a: Attr)
    ensures forall f | f in GetByGroup(p, s, a) :: BlockMember(p, s, f, GetByGroup(p, s, a))
  {
    GetByGroupQueryMethods(p, s, a);
    GetByGroupShape(p, s, a);
    PlainGroupForwards(GetByGroup(p, s, a), [ValuesParam(a)], [Spread(a.name + "s")]);
    ClosedGroup(p, s, GetByGroup(p, s, a));
  }

  lemma GetByOrderByGroupQueryMethods(p: DaoParams, s: Shape, a: Attr, b: Attr)
    ensures forall f | f in GetByOrderByGroup(p, s, a, b) :: QueryMethod(p, s, f)
  {
    var base := GetByAttrOrderByName(a, b);
    assert StartsWithGet(base);
    StartsWithGetAppend(base, "As");
    StartsWithGetAppend(base + "As", ShapeName(s));
    OrderedInternalsQueryMethods(p, s, base + "As" + ShapeName(s));
    PublicNameStartsWithGet(p, s, base);
    DispatcherQueryMethod(p, s, PublicName(p, s, base), [ValuesParam(a), LimitDefaultParam, OrderDefaultParam]);
  }

  lemma GetByOrderByGroupMembers(p: DaoParams, s: Shape, a: Attr, b: Attr)
    ensures forall f | f in GetByOrderByGroup(p, s, a, b) :: BlockMember(p, s, f, GetByOrderByGroup(p, s, a, b))
  {
    GetByOrderByGroupQueryMethods(p, s, a, b);
    GetByOrderByGroupShape(p, s, a, b);
    OrderedGroupForwards(GetByOrderByGroup(p, s, a, b), [ValuesParam(a)], [Spread(a.name + "s")]);
    ClosedGroup(p, s, GetByOrderByGroup(p, s, a, b));
  }

  lemma ForwardsIntoMono(f: FunSpec, small: seq<FunSpec>, large: seq<FunSpec>)
    requires ForwardsInto(f, small)
    requires forall g | g in small :: g in large
    ensures ForwardsInto(f, large)
  {
    forall r | r in f.routes ensures exists g | g in large :: g.isAbstract && Calls(r, g) {
      var g :| g in small && g.isAbstract && Calls(r, g);
      assert g in large;
    }
  }

  lemma BlockMemberMono(p: DaoParams, s: Shape, f: FunSpec, small: seq<FunSpec>, large: seq<FunSpec>)
    requires BlockMember(p, s, f, small)
    requires forall g | g in small :: g in large
    ensures BlockMember(p, s, f, large)
  {
    if !f.isAbstract {
      ForwardsIntoMono(f, small, large);
    }
  }

  lemma GetAllOrderByBlockMember(p: DaoParams, s: Shape, f: FunSpec)
    requires f in Block(p, GetAllOrderByFamily, s)
    ensures BlockMember(p, s, f, Block(p, GetAllOrderByFamily, s))
  {
    var rows := OrderByGroups(p, s);
    forall a | a in p.attributes && f in rows(a) ensures BlockMember(p, s, f, rows(a)) {
      GetAllOrderByGroupMembers(p, s, a);
    }
    RowsBlockMember(p, s, f, p.attributes, rows);
  }

  lemma GetByBlockMember(p: DaoParams, s: Shape, f: FunSpec)
    requires f in Block(p, GetByFamily, s)
    ensures BlockMember(p, s, f, Block(p, GetByFamily, s))
  {
    var rows := GetByGroups(p, s);
    forall a | a in p.attributes && f in rows(a) ensures BlockMember(p, s, f, rows(a)) {
      GetByGroupMembers(p, s, a);
    }
    RowsBlockMember(p, s, f, p.attributes, rows);
  }

  lemma GetByOrderByBlockMember(p: DaoParams, s: Shape, f: FunSpec)
    requires f in Block(p, GetByOrderByFamily, s)
    ensures BlockMember(p, s, f, Block(p, GetByOrderByFamily, s))
  {
    var rows := GetByOrderByGroups(p, s);
    assert Block(p, GetByOrderByFamily, s) == FlatMap(p.attributes, rows);
    forall a | a in p.attributes && f in rows(a) ensures BlockMember(p, s, f, rows(a)) {
      GetByOrderByRowMember(p, s, a, f);
    }
    RowsBlockMember(p, s, f, p.attributes, rows);
  }

  /** A block member of the row it comes from is a block member of the block. */
  lemma RowsBlockMember(p: DaoParams, s: Shape, f: FunSpec, xs: seq<Attr>, rows: Attr -> seq<FunSpec>)
    requires f in FlatMap(xs, rows)
    requires forall a | a in xs && f in rows(a) :: BlockMember(p, s, f, rows(a))
    ensures BlockMember(p, s, f, FlatMap(xs, rows))
  {
    FlatMapOrigin(xs, rows, f);
    var a :| a in xs && f in rows(a);
    forall g | g in rows(a) ensures g in FlatMap(xs, rows) {
      FlatMapMember(xs, rows, a, g);
    }
    BlockMemberMono(p, s, f, rows(a), FlatMap(xs, rows));
  }

  /** One row of the get-by-ordered block: the groups for one filter attribute. */
  lemma GetByOrderByRowMember(p: DaoParams, s: Shape, a: Attr, f: FunSpec)
    requires f in GetByOrderByGroups(p, s)(a)
    ensures BlockMember(p, s, f, GetByOrderByGroups(p, s)(a))
  {
    var pairs := PairGroups(p, s, a);
    assert GetByOrderByGroups(p, s)(a) == FlatMap(p.attributes, pairs);
    forall b | b in p.attributes && f in pairs(b) ensures BlockMember(p, s, f, pairs(b)) {
      GetByOrderByGroupMembers(p, s, a, b);
    }
    RowsBlockMember(p, s, f, p.attributes, pairs);
  }

  /** Every method of a block is a query method of its shape, and every
      dispatcher of a block forwards only to abstract methods of that block. */
  lemma BlockMembers(p: DaoParams, fam: Family, s: Shape, f: FunSpec)
    requires f in Block(p, fam, s)
    ensures BlockMember(p, s, f, Block(p, fam, s))
  {
    match fam
    case GetAllFamily => GetAllGroupMembers(p, s);
    case GetAllOrderByFamily => GetAllOrderByBlockMember(p, s, f);
    case GetByFamily => GetByBlockMember(p, s, f);
    case GetByOrderByFamily => GetByOrderByBlockMember(p, s, f);
  }

  // ---------------------------------------------------------------------------
  // The whole DAO
  // ---------------------------------------------------------------------------

  lemma ShapeBlocksMember(p: DaoParams, fam: Family, shapes: seq<Shape>, f: FunSpec)
    requires f in FlatMap(shapes, FamilyBlocks(p, fam))
    ensures exists s :: s in shapes && BlockMember(p, s, f, FlatMap(shapes, FamilyBlocks(p, fam)))
  {
    var blocks := FamilyBlocks(p, fam);
    FlatMapOrigin(shapes, blocks, f);
    var s :| s in shapes && f in blocks(s);
    BlockMembers(p, fam, s, f);
    forall g | g in blocks(s) ensures g in FlatMap(shapes, blocks) {
      FlatMapMember(shapes, blocks, s, g);
    }
    BlockMemberMono(p, s, f, blocks(s), FlatMap(shapes, blocks));
  }

  /** A method of one family's part is a block member of the whole layout. */
  lemma LayoutPartMember(p: DaoParams, fam: Family, shapes: seq<Shape>, f: FunSpec, all: seq<FunSpec>)
    requires f in FlatMap(shapes, FamilyBlocks(p, fam))
    requires forall g | g in FlatMap(shapes, FamilyBlocks(p, fam)) :: g in all
    ensures exists s :: s in shapes && BlockMember(p, s, f, all)
  {
    var part := FlatMap(shapes, FamilyBlocks(p, fam));
    ShapeBlocksMember(p, fam, shapes, f);
    var s :| s in shapes && BlockMember(p, s, f, part);
    BlockMemberMono(p, s, f, part, all);
  }

  lemma QueryLayoutMember(p: DaoParams, shapes: seq<Shape>, f: FunSpec)
    requires f in QueryLayout(p, shapes)
    ensures exists s :: s in shapes && BlockMember(p, s, f, QueryLayout(p, shapes))
  {
    var all := QueryLayout(p, shapes);
    var getAll, getAllOrdered := FlatMap(shapes, FamilyBlocks(p, GetAllFamily)), FlatMap(shapes, FamilyBlocks(p, GetAllOrderByFamily));
    var getBy, getByOrdered := FlatMap(shapes, FamilyBlocks(p, GetByFamily)), FlatMap(shapes, FamilyBlocks(p, GetByOrderByFamily));
    if f in getAll {
      LayoutPartMember(p, GetAllFamily, shapes, f, all);
    } else if p.generateOrderBy && f in getAllOrdered {
      LayoutPartMember(p, GetAllOrderByFamily, shapes, f, all);
    } else if f in getBy {
      LayoutPartMember(p, GetByFamily, shapes, f, all);
    } else {
      assert p.generateOrderBy && f in getByOrdered;
      LayoutPartMember(p, GetByOrderByFamily, shapes, f, all);
    }
  }

  /** Every query method has an emitted shape, and every dispatcher forwards
      only to abstract methods that the DAO declares. */
  lemma QueriesMember(p: DaoParams, f: FunSpec)
    requires Queries(p).Ok? && f in Queries(p).value
    ensures exists s :: s in EmittedShapes(p).value && BlockMember(p, s, f, Queries(p).value)
  {
    QueriesLayout(p);
    QueryLayoutMember(p, EmittedShapes(p).value, f);
  }

  /** With `@Relation` no mutation is generated and every abstract method is a
      `@Transaction` query; without it nothing is `@Transaction`. */
  lemma DaoMember(p: DaoParams, f: FunSpec)
    requires DaoFunctions(p).Ok? && f in DaoFunctions(p).value
    ensures f.transaction <==> p.containsRelationAnnotation && f.isAbstract
    ensures p.containsRelationAnnotation ==> f.annotation.QueryAnn? || f.annotation == NoAnn
  {
    if f in NativeRoomQueries(p) {
      NativeMember(p, f);
    } else {
      assert Queries(p).Ok? && f in Queries(p).value;
      QueriesMember(p, f);
    }
  }

  /** The native methods exist only without `@Relation`, and none is `@Transaction`. */
  lemma NativeMember(p: DaoParams, f: FunSpec)
    requires f in NativeRoomQueries(p)
    ensures !p.containsRelationAnnotation && !f.transaction
  {
    if f in BlockingQueries(p) {
      BlockingShape(p);
    } else {
      assert f in RxQueries(p);
    }
  }

  /** The native methods come first. */
  lemma NativesFirst(p: DaoParams)
    requires DaoFunctions(p).Ok?
    ensures |NativeRoomQueries(p)| <= |DaoFunctions(p).value|
    ensures forall k | 0 <= k < |NativeRoomQueries(p)| :: DaoFunctions(p).value[k] == NativeRoomQueries(p)[k]
  {
    DaoFunctionsLayout(p);
  }

  lemma RxForwardsIntoBlocking(p: DaoParams, v: seq<FunSpec>, i: nat)
    requires i < 6
    requires |v| >= 6 && forall k | 0 <= k < 6 :: v[k] == BlockingQueries(p)[k]
    ensures ForwardsInto(RxQueries(p)[i], v)
  {
    assert v[i] == BlockingQueries(p)[i];
    RxWrapsBlocking(p, i);
  }

  /** With blocking and Rx both on, each Rx wrapper forwards to a declared
      blocking method. */
  lemma RxWithBlocking(p: DaoParams, i: nat)
    requires i < 6
    requires DaoFunctions(p).Ok? && !p.containsRelationAnnotation && p.generateRxQueries && p.generateBlockingQueries
    ensures RxQueries(p)[i] in DaoFunctions(p).value
    ensures ForwardsInto(RxQueries(p)[i], DaoFunctions(p).value)
  {
    NativesFirst(p);
    var v, rx, blocking := DaoFunctions(p).value, RxQueries(p), BlockingQueries(p);
    assert NativeRoomQueries(p) == blocking + rx;
    assert v[6 + i] == rx[i];
    RxForwardsIntoBlocking(p, v, i);
  }

  /** An Rx wrapper calls no Rx wrapper (the names differ) and no query
      method (those start with `get`). */
  lemma RxTargetUndeclared(p: DaoParams, i: nat, g: FunSpec)
    requires i < 6
    requires g in RxQueries(p) || StartsWithGet(g.name)
    ensures forall r | r in RxQueries(p)[i].routes :: !Calls(r, g)
  {
    RxWrapsBlocking(p, i);
    RxNames(p);
    var rx := RxQueries(p);
    var target := rx[i].routes[0].target;
    assert target == rx[i].name + "Blocking";
    assert |target| > 9 && target[0] == rx[i].name[0];
    forall r | r in rx[i].routes ensures !Calls(r, g) {
      assert r == rx[i].routes[0];
    }
  }

  /** With blocking off, the DAO is the Rx wrappers followed by the queries. */
  lemma RxOnlyNatives(p: DaoParams)
    requires DaoFunctions(p).Ok? && !p.containsRelationAnnotation && p.generateRxQueries && !p.generateBlockingQueries
    ensures Queries(p).Ok? && DaoFunctions(p).value == RxQueries(p) + Queries(p).value
  {
    DaoFunctionsLayout(p);
    QueriesLayout(p);
    assert NativeRoomQueries(p) == RxQueries(p);
  }

  /** With Rx on and blocking off, each Rx wrapper is still declared and still
      calls its `...Blocking` method, which the DAO does not declare. */
  lemma RxWithoutBlocking(p: DaoParams, i: nat)
    requires i < 6
    requires DaoFunctions(p).Ok? && !p.containsRelationAnnotation && p.generateRxQueries && !p.generateBlockingQueries
    ensures RxQueries(p)[i] in DaoFunctions(p).value
    ensures forall r, g | r in RxQueries(p)[i].routes && g in DaoFunctions(p).value :: !Calls(r, g)
  {
    RxOnlyNatives(p);
    var v, rx, queries := DaoFunctions(p).value, RxQueries(p), Queries(p).value;
    assert v[i] == rx[i];
    forall g | g in v ensures forall r | r in rx[i].routes :: !Calls(r, g) {
      if g !in rx {
        assert g in queries;
        QueriesMember(p, g);
      }
      RxTargetUndeclared(p, i, g);
    }
  }

}
