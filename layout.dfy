/** The layout of the generated DAO: which shapes are generated, in which
    order the methods come, how many there are, and what every query method
    looks like. */
module Layout {
  import opened Types
  import opened Seqs
  import opened Descriptors
  import opened AutoDaoParams
  import opened NativeRoomFunctions
  import opened Functions

  // ---------------------------------------------------------------------------
  // Shape selection
  // ---------------------------------------------------------------------------

  /** The shapes whose blocks a family emits, in emission order: only the
      default (which must be one of the four wrappers), or Single, Maybe and
      Flowable when Rx is on followed by LiveData when live data is on. */
  function EmittedShapes(p: DaoParams): Result<seq<Shape>> {
    if p.generateOnlyDefaultReturnType then
      if Supported(p.defaultReturnType) then Ok([p.defaultReturnType])
      else Err(UnsupportedReturnType(p.defaultReturnType))
    else
      Ok((if p.generateRxQueries then [Single, Maybe, Flowable] else [])
         + (if p.generateLiveDataQueries then [LiveData] else []))
  }

  /** Shape `s` is asked for: it is the default in only-default mode, or one
      of the Rx shapes with Rx on, or LiveData with live data on. */
  predicate ShapeRequested(p: DaoParams, s: Shape) {
    if p.generateOnlyDefaultReturnType then s == p.defaultReturnType
    else ((p.generateRxQueries && (s == Single || s == Maybe || s == Flowable))
          || (p.generateLiveDataQueries && s == LiveData))
  }

  /** Which shapes are generated, and that they are distinct recognised wrappers. */
  lemma ShapeSelection(p: DaoParams, s: Shape)
    ensures EmittedShapes(p).Err? <==> p.generateOnlyDefaultReturnType && !Supported(p.defaultReturnType)
    ensures EmittedShapes(p).Err? ==> EmittedShapes(p).error == UnsupportedReturnType(p.defaultReturnType)
    ensures EmittedShapes(p).Ok? ==>
      (s in EmittedShapes(p).value <==> ShapeRequested(p, s))
    ensures EmittedShapes(p).Ok? ==> forall t | t in EmittedShapes(p).value :: Supported(t)
    ensures EmittedShapes(p).Ok? ==> var shapes := EmittedShapes(p).value;
      forall i, j | 0 <= i < j < |shapes| :: shapes[i] != shapes[j]
  {
  }

  /** A family's block for each shape. */
  function FamilyBlocks(p: DaoParams, fam: Family): Shape -> seq<FunSpec> {
    s => Block(p, fam, s)
  }

  /** The shapes of the generate-all branch, over any per-shape blocks. */
  lemma AllShapesFlatMap(f: Shape -> seq<FunSpec>, rx: bool, ld: bool)
    ensures FlatMap((if rx then [Single, Maybe, Flowable] else []) + (if ld then [LiveData] else []), f)
         == (if rx then f(Single) + f(Maybe) + f(Flowable) else []) + (if ld then f(LiveData) else [])
  {
    var rxs: seq<Shape> := if rx then [Single, Maybe, Flowable] else [];
    var lds: seq<Shape> := if ld then [LiveData] else [];
    FlatMapAppend(rxs, lds, f);
    if rx {
      assert rxs[1..] == [Maybe, Flowable] && rxs[1..][1..] == [Flowable] && rxs[1..][1..][1..] == [];
      assert FlatMap([Flowable], f) == f(Flowable) + [] == f(Flowable);
      assert FlatMap([Maybe, Flowable], f) == f(Maybe) + f(Flowable);
      assert FlatMap(rxs, f) == f(Single) + (f(Maybe) + f(Flowable));
    }
    if ld {
      assert lds[1..] == [];
      assert FlatMap(lds, f) == f(LiveData) + [] == f(LiveData);
    }
  }

  /** Each `generate...` function is its family's block over the emitted
      shapes, in order, or fails exactly when the shape selection fails. */
  lemma ForShapesLayout(p: DaoParams, fam: Family)
    ensures EmittedShapes(p).Err? ==> ForShapes(p, fam) == Err(EmittedShapes(p).error)
    ensures EmittedShapes(p).Ok? ==> ForShapes(p, fam) == Ok(FlatMap(EmittedShapes(p).value, FamilyBlocks(p, fam)))
  {
    var f := FamilyBlocks(p, fam);
    if !p.generateOnlyDefaultReturnType {
      AllShapesFlatMap(f, p.generateRxQueries, p.generateLiveDataQueries);
      assert f(Single) == Block(p, fam, Single) && f(Maybe) == Block(p, fam, Maybe);
      assert f(Flowable) == Block(p, fam, Flowable) && f(LiveData) == Block(p, fam, LiveData);
    } else {
      OnlyDefaultLayout(p, fam);
    }
  }

  lemma OnlyDefaultLayout(p: DaoParams, fam: Family)
    requires p.generateOnlyDefaultReturnType
    ensures !Supported(p.defaultReturnType) ==> ForShapes(p, fam) == Err(UnsupportedReturnType(p.defaultReturnType))
    ensures Supported(p.defaultReturnType) ==> ForShapes(p, fam) == Ok(FlatMap([p.defaultReturnType], FamilyBlocks(p, fam)))
  {
    var f, s := FamilyBlocks(p, fam), p.defaultReturnType;
    assert [s][1..] == [];
    assert FlatMap([s], f) == f(s) + [];
    assert f(s) + [] == f(s) == Block(p, fam, s);
    if Supported(s) {
      assert ForShapes(p, fam) == Ok(Block(p, fam, s));
    }
  }

  // ---------------------------------------------------------------------------
  // Sizes and positions
  // ---------------------------------------------------------------------------

  /** Methods per shape in a family over `n` attributes. */
  function FamilySize(fam: Family, n: nat): nat {
    match fam
    case GetAllFamily => 3
    case GetAllOrderByFamily => 5 * n
    case GetByFamily => 3 * n
    case GetByOrderByFamily => 5 * n * n
  }

  lemma PairGroupsLength(p: DaoParams, s: Shape, a: Attr)
    ensures |FlatMap(p.attributes, PairGroups(p, s, a))| == 5 * |p.attributes|
  {
    FlatMapLength(p.attributes, PairGroups(p, s, a), 5);
  }

  lemma BlockLength(p: DaoParams, fam: Family, s: Shape)
    ensures |Block(p, fam, s)| == FamilySize(fam, |p.attributes|)
  {
    var n := |p.attributes|;
    match fam
    case GetAllFamily =>
    case GetAllOrderByFamily => FlatMapLength(p.attributes, OrderByGroups(p, s), 5);
    case GetByFamily => FlatMapLength(p.attributes, GetByGroups(p, s), 3);
    case GetByOrderByFamily =>
      forall a | a in p.attributes ensures |GetByOrderByGroups(p, s)(a)| == 5 * n {
        PairGroupsLength(p, s, a);
      }
      FlatMapLength(p.attributes, GetByOrderByGroups(p, s), 5 * n);
      assert 5 * n * n == (5 * n) * n;
  }

  /** The get-all-ordered-by block is attribute by attribute, five methods each. */
  lemma GetAllOrderByAt(p: DaoParams, s: Shape, i: nat, t: nat)
    requires i < |p.attributes| && t < 5
    ensures 5 * i + t < |Block(p, GetAllOrderByFamily, s)|
    ensures Block(p, GetAllOrderByFamily, s)[5 * i + t] == GetAllOrderByGroup(p, s, p.attributes[i])[t]
  {
    var rows := OrderByGroups(p, s);
    forall a | a in p.attributes ensures |rows(a)| == 5 {
      assert rows(a) == GetAllOrderByGroup(p, s, a);
    }
    FlatMapAt(p.attributes, rows, 5, i, t);
    OrderByBlock(p, s);
    assert rows(p.attributes[i]) == GetAllOrderByGroup(p, s, p.attributes[i]);
  }

  /** The get-by block is attribute by attribute, three methods each. */
  lemma GetByAt(p: DaoParams, s: Shape, i: nat, t: nat)
    requires i < |p.attributes| && t < 3
    ensures 3 * i + t < |Block(p, GetByFamily, s)|
    ensures Block(p, GetByFamily, s)[3 * i + t] == GetByGroup(p, s, p.attributes[i])[t]
  {
    var rows := GetByGroups(p, s);
    forall a | a in p.attributes ensures |rows(a)| == 3 {
      assert rows(a) == GetByGroup(p, s, a);
    }
    FlatMapAt(p.attributes, rows, 3, i, t);
    GetByBlock(p, s);
    assert rows(p.attributes[i]) == GetByGroup(p, s, p.attributes[i]);
  }

  /** Column `col` of row `row` in a table whose rows are `width` wide. */
  function Offset(width: nat, row: nat, col: nat): nat {
    width * row + col
  }

  /** The pairs block row of filter attribute `i`: `5n` methods from `5n * i` on. */
  lemma GetByOrderByRow(p: DaoParams, s: Shape, i: nat, m: nat)
    requires i < |p.attributes| && m < 5 * |p.attributes|
    ensures |FlatMap(p.attributes, PairGroups(p, s, p.attributes[i]))| == 5 * |p.attributes|
    ensures Offset(5 * |p.attributes|, i, m) < |FlatMap(p.attributes, GetByOrderByGroups(p, s))|
    ensures FlatMap(p.attributes, GetByOrderByGroups(p, s))[Offset(5 * |p.attributes|, i, m)]
         == FlatMap(p.attributes, PairGroups(p, s, p.attributes[i]))[m]
  {
    var n := |p.attributes|;
    var rows := GetByOrderByGroups(p, s);
    RowsLength(p, s);
    FlatMapAt(p.attributes, rows, 5 * n, i, m);
    assert Offset(5 * n, i, m) == 5 * n * i + m;
    assert rows(p.attributes[i]) == FlatMap(p.attributes, PairGroups(p, s, p.attributes[i]));
  }

  lemma RowsLength(p: DaoParams, s: Shape)
    ensures forall a :: |GetByOrderByGroups(p, s)(a)| == 5 * |p.attributes|
  {
    forall a ensures |GetByOrderByGroups(p, s)(a)| == 5 * |p.attributes| {
      PairGroupsLength(p, s, a);
    }
  }

  /** The pairs block: the filter attribute `i` is the outer loop, the order
      attribute `j` the inner one, five methods per pair (self-pairs included). */
  lemma GetByOrderByAt(p: DaoParams, s: Shape, i: nat, j: nat, t: nat)
    requires i < |p.attributes| && j < |p.attributes| && t < 5
    ensures |GetByOrderByGroup(p, s, p.attributes[i], p.attributes[j])| == 5
    ensures Offset(5 * |p.attributes|, i, 5 * j + t) < |Block(p, GetByOrderByFamily, s)|
    ensures Block(p, GetByOrderByFamily, s)[Offset(5 * |p.attributes|, i, 5 * j + t)]
         == GetByOrderByGroup(p, s, p.attributes[i], p.attributes[j])[t]
  {
    var n := |p.attributes|;
    var m := 5 * j + t;
    assert m < 5 * n;
    GetByOrderByRow(p, s, i, m);
    FlatMapAt(p.attributes, PairGroups(p, s, p.attributes[i]), 5, j, t);
    PairsBlock(p, s);
  }

  lemma OrderByBlock(p: DaoParams, s: Shape)
    ensures Block(p, GetAllOrderByFamily, s) == FlatMap(p.attributes, OrderByGroups(p, s))
  {
  }

  lemma GetByBlock(p: DaoParams, s: Shape)
    ensures Block(p, GetByFamily, s) == FlatMap(p.attributes, GetByGroups(p, s))
  {
  }

  lemma PairsBlock(p: DaoParams, s: Shape)
    ensures Block(p, GetByOrderByFamily, s) == FlatMap(p.attributes, GetByOrderByGroups(p, s))
  {
  }

  // ---------------------------------------------------------------------------
  // The whole DAO
  // ---------------------------------------------------------------------------

  /** Number of native mutation methods. */
  function NativeCount(p: DaoParams): nat {
    if p.containsRelationAnnotation then 0
    else (if p.generateBlockingQueries then 6 else 0) + (if p.generateRxQueries then 6 else 0)
  }

  lemma NativeLength(p: DaoParams)
    ensures |NativeRoomQueries(p)| == NativeCount(p)
    ensures p.containsRelationAnnotation ==> NativeRoomQueries(p) == []
    ensures !p.containsRelationAnnotation && p.generateBlockingQueries ==> NativeRoomQueries(p)[..6] == BlockingQueries(p)
    ensures !p.containsRelationAnnotation && p.generateRxQueries ==>
      NativeRoomQueries(p)[NativeCount(p) - 6..] == RxQueries(p)
  {
  }

  /** The four families over the emitted shapes, order-by ones only when enabled. */
  function QueryLayout(p: DaoParams, shapes: seq<Shape>): seq<FunSpec> {
    FlatMap(shapes, FamilyBlocks(p, GetAllFamily))
    + (if p.generateOrderBy then FlatMap(shapes, FamilyBlocks(p, GetAllOrderByFamily)) else [])
    + FlatMap(shapes, FamilyBlocks(p, GetByFamily))
    + (if p.generateOrderBy then FlatMap(shapes, FamilyBlocks(p, GetByOrderByFamily)) else [])
  }

  lemma QueriesLayout(p: DaoParams)
    ensures EmittedShapes(p).Err? ==> Queries(p) == Err(EmittedShapes(p).error)
    ensures EmittedShapes(p).Ok? ==> Queries(p) == Ok(QueryLayout(p, EmittedShapes(p).value))
  {
    ForShapesLayout(p, GetAllFamily);
    ForShapesLayout(p, GetAllOrderByFamily);
    ForShapesLayout(p, GetByFamily);
    ForShapesLayout(p, GetByOrderByFamily);
  }

  /** `daoFunctions` fails exactly on an unsupported default in only-default
      mode; otherwise it is the native methods, then get-all, get-all-ordered
      (when order-by is on), get-by, and get-by-ordered (when order-by is
      on), each family over the emitted shapes. */
  lemma DaoFunctionsLayout(p: DaoParams)
    ensures DaoFunctions(p).Err? <==> p.generateOnlyDefaultReturnType && !Supported(p.defaultReturnType)
    ensures DaoFunctions(p).Err? ==> DaoFunctions(p).error == UnsupportedReturnType(p.defaultReturnType)
    ensures DaoFunctions(p).Ok? ==> DaoFunctions(p).value == NativeRoomQueries(p) + QueryLayout(p, EmittedShapes(p).value)
  {
    QueriesLayout(p);
  }

  /** The size of the shape-expanded query list. */
  lemma FamilyBlocksLength(p: DaoParams, fam: Family, shapes: seq<Shape>)
    ensures |FlatMap(shapes, FamilyBlocks(p, fam))| == |shapes| * FamilySize(fam, |p.attributes|)
  {
    forall s | s in shapes ensures |FamilyBlocks(p, fam)(s)| == FamilySize(fam, |p.attributes|) {
      BlockLength(p, fam, s);
    }
    FlatMapLength(shapes, FamilyBlocks(p, fam), FamilySize(fam, |p.attributes|));
  }

  /** Methods per emitted shape: `3 + 3n`, plus `5n + 5n²` with order-by. */
  function PerShape(p: DaoParams): nat {
    var n := |p.attributes|;
    FamilySize(GetAllFamily, n)
    + (if p.generateOrderBy then FamilySize(GetAllOrderByFamily, n) else 0)
    + FamilySize(GetByFamily, n)
    + (if p.generateOrderBy then FamilySize(GetByOrderByFamily, n) else 0)
  }

  lemma QueryLayoutLength(p: DaoParams, shapes: seq<Shape>)
    ensures |QueryLayout(p, shapes)| == |shapes| * PerShape(p)
  {
    var n := |p.attributes|;
    FamilyBlocksLength(p, GetAllFamily, shapes);
    FamilyBlocksLength(p, GetAllOrderByFamily, shapes);
    FamilyBlocksLength(p, GetByFamily, shapes);
    FamilyBlocksLength(p, GetByOrderByFamily, shapes);
    var ga, gb := FlatMap(shapes, FamilyBlocks(p, GetAllFamily)), FlatMap(shapes, FamilyBlocks(p, GetAllOrderByFamily));
    var gc, gd := FlatMap(shapes, FamilyBlocks(p, GetByFamily)), FlatMap(shapes, FamilyBlocks(p, GetByOrderByFamily));
    if p.generateOrderBy {
      assert QueryLayout(p, shapes) == ga + gb + gc + gd;
      Distribute(|shapes|, FamilySize(GetAllFamily, n), FamilySize(GetAllOrderByFamily, n),
                 FamilySize(GetByFamily, n), FamilySize(GetByOrderByFamily, n), PerShape(p));
    } else {
      assert QueryLayout(p, shapes) == ga + [] + gc + [];
      Distribute(|shapes|, FamilySize(GetAllFamily, n), 0, FamilySize(GetByFamily, n), 0, PerShape(p));
    }
  }

  lemma Distribute(k: nat, a: nat, b: nat, c: nat, d: nat, sum: nat)
    requires sum == a + b + c + d
    ensures k * a + k * b + k * c + k * d == k * sum
  {
  }

  /** The number of generated methods. */
  lemma DaoFunctionsCount(p: DaoParams)
    ensures DaoFunctions(p).Ok? ==> |DaoFunctions(p).value| == NativeCount(p) + |EmittedShapes(p).value| * PerShape(p)
  {
    DaoFunctionsLayout(p);
    NativeLength(p);
    if DaoFunctions(p).Ok? {
      QueryLayoutLength(p, EmittedShapes(p).value);
    }
  }
}
