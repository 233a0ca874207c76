/** The DAO method enumerator (`daoFunctions`): the native mutations, then
    four query families, each expanded over the return shapes, the entity's
    attributes, both orders and the limit / no-limit variants.

    Each family's source text repeats one builder per shape (`singleList`,
    `maybeList`, `flowableList`, `liveDataList`, and `getAllSingle_`,
    `getAllMaybe_`, ...); the copies differ only in the shape constant and in
    whether the public method takes `autoThread` (Single and Maybe do), so each
    is modelled once, with the shape as a parameter. */
module Functions {
  import opened Types
  import opened Seqs
  import opened Naming
  import opened Descriptors
  import opened AutoDaoParams
  import opened NativeRoomFunctions

  // ---------------------------------------------------------------------------
  // Shared pieces of the builders
  // ---------------------------------------------------------------------------

  /** `<Shape><List<Entity>>`, the return type of every query method. */
  function ListResult(p: DaoParams, s: Shape): TypeRef {
    Wrapped(s, ListOf(p.entityType))
  }

  /** Single and Maybe dispatchers are built with `addAutoThreadParam = true`. */
  predicate AutoThreaded(s: Shape) {
    s == Single || s == Maybe
  }

  /** A public method's name: bare when its shape is the configured default,
      otherwise suffixed with `As<Shape>`. */
  function PublicName(p: DaoParams, s: Shape, base: string): string {
    if p.defaultReturnType == s then base else base + "As" + ShapeName(s)
  }

  /** `limit: Int` of an internal method. */
  const LimitParam := Param("limit", IntType, false, None)

  /** `limit: Int = 0` of a dispatcher. */
  const LimitDefaultParam := Param("limit", IntType, false, Some("0"))

  /** `order: Order = Order.ASC` of an ordered dispatcher. */
  const OrderDefaultParam := Param("order", OrderType, false, Some("Order.ASC"))

  /** `vararg <name>s: <type>`, the filter values of a get-by method. */
  function ValuesParam(a: Attr): Param {
    Param(a.name + "s", a.typ, true, None)
  }

  /** A protected abstract `@Query` method, `@Transaction` when the entity has relations. */
  function Internal(p: DaoParams, name: string, params: seq<Param>, s: Shape, sql: string): FunSpec {
    FunSpec(name, params, ListResult(p, s), QueryAnn(sql), p.containsRelationAnnotation, true, true, [], false)
  }

  /** A public dispatcher; Single and Maybe ones take `autoThread` last and are wrapped. */
  function Dispatcher(p: DaoParams, name: string, params: seq<Param>, s: Shape, routes: seq<Route>): FunSpec {
    FunSpec(name, params + (if AutoThreaded(s) then [AutoThreadParam] else []), ListResult(p, s),
            NoAnn, false, false, false, routes, AutoThreaded(s))
  }

  function GetByAttrName(a: Attr): string {
    "getBy" + Capitalize(a.name)
  }

  function GetByAttrOrderByName(a: Attr, b: Attr): string {
    "getBy" + Capitalize(a.name) + "OrderedBy" + Capitalize(b.name)
  }

  // ---------------------------------------------------------------------------
  // Get all
  // ---------------------------------------------------------------------------

  function GetAllInternal(p: DaoParams, s: Shape): FunSpec {
    Internal(p, "getAllAs" + ShapeName(s) + "_", [], s, "SELECT * FROM " + p.tableName)
  }

  function GetAllLimitInternal(p: DaoParams, s: Shape): FunSpec {
    Internal(p, "getAllAs" + ShapeName(s) + "_", [LimitParam], s, "SELECT * FROM " + p.tableName + " LIMIT :limit")
  }

  function GetAllDispatcher(p: DaoParams, s: Shape): FunSpec {
    var priv := "getAllAs" + ShapeName(s);
    Dispatcher(p, PublicName(p, s, "getAll"), [LimitDefaultParam], s,
      [Route(LimitZero, AnyOrder, priv + "_", []),
       Route(LimitNonZero, AnyOrder, priv + "_", [Pass("limit")])])
  }

  // ---------------------------------------------------------------------------
  // Get all ordered by attribute
  // ---------------------------------------------------------------------------

  function GetAllOrderByName(a: Attr, s: Shape): string {
    "getAllOrderBy" + Capitalize(a.name) + "As" + ShapeName(s)
  }

  function GetAllOrderByInternal(p: DaoParams, s: Shape, a: Attr, o: Order): FunSpec {
    Internal(p, GetAllOrderByName(a, s) + OrderSuffix(o) + "_", [], s,
      "SELECT * FROM " + p.tableName + " ORDER BY " + a.collumnName + " " + OrderLiteral(o))
  }

  function GetAllOrderByLimitInternal(p: DaoParams, s: Shape, a: Attr, o: Order): FunSpec {
    Internal(p, GetAllOrderByName(a, s) + OrderSuffix(o) + "_", [LimitParam], s,
      "SELECT * FROM " + p.tableName + " ORDER BY " + a.collumnName + " " + OrderLiteral(o) + " LIMIT :limit")
  }

  function GetAllOrderedByDispatcher(p: DaoParams, s: Shape, a: Attr): FunSpec {
    var priv := GetAllOrderByName(a, s);
    Dispatcher(p, PublicName(p, s, "getAllOrderedBy" + Capitalize(a.name)), [LimitDefaultParam, OrderDefaultParam], s,
      [Route(LimitZero, OrderIs(ASC), priv + "Asc_", []),
       Route(LimitZero, OrderIs(DESC), priv + "Desc_", []),
       Route(LimitNonZero, OrderIs(ASC), priv + "Asc_", [Pass("limit")]),
       Route(LimitNonZero, OrderIs(DESC), priv + "Desc_", [Pass("limit")])])
  }

  // ---------------------------------------------------------------------------
  // Get by attribute
  // ---------------------------------------------------------------------------

  function GetByInternal(p: DaoParams, s: Shape, a: Attr): FunSpec {
    Internal(p, GetByAttrName(a) + "As" + ShapeName(s) + "_", [ValuesParam(a)], s,
      "SELECT * FROM " + p.tableName + " WHERE " + a.collumnName + " IN (:" + a.name + "s)")
  }

  function GetByLimitInternal(p: DaoParams, s: Shape, a: Attr): FunSpec {
    Internal(p, GetByAttrName(a) + "As" + ShapeName(s) + "_", [ValuesParam(a), LimitParam], s,
      "SELECT * FROM " + p.tableName + " WHERE " + a.collumnName + " IN (:" + a.name + "s)" + " LIMIT :limit")
  }

  function GetByDispatcher(p: DaoParams, s: Shape, a: Attr): FunSpec {
    var priv := GetByAttrName(a) + "As" + ShapeName(s);
    Dispatcher(p, PublicName(p, s, GetByAttrName(a)), [ValuesParam(a), LimitDefaultParam], s,
      [Route(LimitZero, AnyOrder, priv + "_", [Spread(a.name + "s")]),
       Route(LimitNonZero, AnyOrder, priv + "_", [Spread(a.name + "s"), Pass("limit")])])
  }

  // ---------------------------------------------------------------------------
  // Get by attribute ordered by attribute
  // ---------------------------------------------------------------------------

  function GetByOrderByInternal(p: DaoParams, s: Shape, a: Attr, b: Attr, o: Order): FunSpec {
    Internal(p, GetByAttrOrderByName(a, b) + "As" + ShapeName(s) + OrderSuffix(o) + "_", [ValuesParam(a)], s,
      "SELECT * FROM " + p.tableName + " WHERE " + a.collumnName + " IN (:" + a.name + "s)"
        + " ORDER BY " + b.collumnName + " " + OrderLiteral(o))
  }

  function GetByOrderByLimitInternal(p: DaoParams, s: Shape, a: Attr, b: Attr, o: Order): FunSpec {
    Internal(p, GetByAttrOrderByName(a, b) + "As" + ShapeName(s) + OrderSuffix(o) + "_", [ValuesParam(a), LimitParam], s,
      "SELECT * FROM " + p.tableName + " WHERE " + a.collumnName + " IN (:" + a.name + "s)"
        + " ORDER BY " + b.collumnName + " " + OrderLiteral(o) + " LIMIT :limit")
  }

  function GetByOrderedByDispatcher(p: DaoParams, s: Shape, a: Attr, b: Attr): FunSpec {
    var priv := GetByAttrOrderByName(a, b) + "As" + ShapeName(s);
    var values := a.name + "s";
    Dispatcher(p, PublicName(p, s, GetByAttrOrderByName(a, b)), [ValuesParam(a), LimitDefaultParam, OrderDefaultParam], s,
      [Route(LimitZero, OrderIs(ASC), priv + "Asc_", [Spread(values)]),
       Route(LimitZero, OrderIs(DESC), priv + "Desc_", [Spread(values)]),
       Route(LimitNonZero, OrderIs(ASC), priv + "Asc_", [Spread(values), Pass("limit")]),
       Route(LimitNonZero, OrderIs(DESC), priv + "Desc_", [Spread(values), Pass("limit")])])
  }

  // ---------------------------------------------------------------------------
  // Blocks and families
  // ---------------------------------------------------------------------------

  function GetAllGroup(p: DaoParams, s: Shape): seq<FunSpec> {
    [GetAllInternal(p, s), GetAllLimitInternal(p, s), GetAllDispatcher(p, s)]
  }

  function GetAllOrderByGroup(p: DaoParams, s: Shape, a: Attr): seq<FunSpec> {
    [GetAllOrderByInternal(p, s, a, ASC), GetAllOrderByInternal(p, s, a, DESC),
     GetAllOrderByLimitInternal(p, s, a, ASC), GetAllOrderByLimitInternal(p, s, a, DESC),
     GetAllOrderedByDispatcher(p, s, a)]
  }

  function GetByGroup(p: DaoParams, s: Shape, a: Attr): seq<FunSpec> {
    [GetByInternal(p, s, a), GetByLimitInternal(p, s, a), GetByDispatcher(p, s, a)]
  }

  function GetByOrderByGroup(p: DaoParams, s: Shape, a: Attr, b: Attr): seq<FunSpec> {
    [GetByOrderByInternal(p, s, a, b, ASC), GetByOrderByInternal(p, s, a, b, DESC),
     GetByOrderByLimitInternal(p, s, a, b, ASC), GetByOrderByLimitInternal(p, s, a, b, DESC),
     GetByOrderedByDispatcher(p, s, a, b)]
  }

  /** The four query families. */
  datatype Family = GetAllFamily | GetAllOrderByFamily | GetByFamily | GetByOrderByFamily

  /** The group each attribute contributes to the get-all-ordered-by block. */
  function OrderByGroups(p: DaoParams, s: Shape): Attr -> seq<FunSpec> {
    a => GetAllOrderByGroup(p, s, a)
  }

  /** The group each attribute contributes to the get-by block. */
  function GetByGroups(p: DaoParams, s: Shape): Attr -> seq<FunSpec> {
    a => GetByGroup(p, s, a)
  }

  /** The ordered groups of one filter attribute, one per order attribute. */
  function PairGroups(p: DaoParams, s: Shape, a: Attr): Attr -> seq<FunSpec> {
    b => GetByOrderByGroup(p, s, a, b)
  }

  /** Everything one filter attribute contributes to the get-by-ordered-by block. */
  function GetByOrderByGroups(p: DaoParams, s: Shape): Attr -> seq<FunSpec> {
    a => FlatMap(p.attributes, PairGroups(p, s, a))
  }

  /** One family's list for one shape: the `singleList()`, `maybeList()`, ...
      of the source. The filter attribute is the outer loop of the pairs. */
  function Block(p: DaoParams, fam: Family, s: Shape): seq<FunSpec> {
    match fam
    case GetAllFamily => GetAllGroup(p, s)
    case GetAllOrderByFamily => FlatMap(p.attributes, OrderByGroups(p, s))
    case GetByFamily => FlatMap(p.attributes, GetByGroups(p, s))
    case GetByOrderByFamily => FlatMap(p.attributes, GetByOrderByGroups(p, s))
  }

  /** Shape selection, as each `generate...` function writes it: only the
      default shape's block (an unrecognised default is an error), or the three
      Rx shapes when Rx is on followed by LiveData when live data is on. */
  function ForShapes(p: DaoParams, fam: Family): Result<seq<FunSpec>> {
    if p.generateOnlyDefaultReturnType then
      match p.defaultReturnType
      case Single => Ok(Block(p, fam, Single))
      case Maybe => Ok(Block(p, fam, Maybe))
      case Flowable => Ok(Block(p, fam, Flowable))
      case LiveData => Ok(Block(p, fam, LiveData))
      case Other(_) => Err(UnsupportedReturnType(p.defaultReturnType))
    else
      var rxQueries := if p.generateRxQueries then Block(p, fam, Single) + Block(p, fam, Maybe) + Block(p, fam, Flowable) else [];
      var liveDataQueries := if p.generateLiveDataQueries then Block(p, fam, LiveData) else [];
      Ok(rxQueries + liveDataQueries)
  }

  function GenerateGetAll(p: DaoParams): Result<seq<FunSpec>> {
    ForShapes(p, GetAllFamily)
  }

  function GenerateGetAllOrderBy(p: DaoParams): Result<seq<FunSpec>> {
    if p.generateOrderBy then ForShapes(p, GetAllOrderByFamily) else Ok([])
  }

  function GenerateGetByAttr(p: DaoParams): Result<seq<FunSpec>> {
    ForShapes(p, GetByFamily)
  }

  function GenerateGetByAttrOrderByAttr(p: DaoParams): Result<seq<FunSpec>> {
    if p.generateOrderBy then ForShapes(p, GetByOrderByFamily) else Ok([])
  }

  /** `a + b` on lists whose computation may throw: the first failure wins. */
  function Concat(a: Result<seq<FunSpec>>, b: Result<seq<FunSpec>>): Result<seq<FunSpec>> {
    match a
    case Err(e) => Err(e)
    case Ok(x) =>
      match b
      case Err(e) => Err(e)
      case Ok(y) => Ok(x + y)
  }

  /** No mutations for entities with `@Relation`; otherwise the six blocking
      methods (when enabled) before the six Rx wrappers (when enabled). */
  function NativeRoomQueries(p: DaoParams): seq<FunSpec> {
    if p.containsRelationAnnotation then []
    else
      (if p.generateBlockingQueries then BlockingQueries(p) else [])
      + (if p.generateRxQueries then RxQueries(p) else [])
  }

  function Queries(p: DaoParams): Result<seq<FunSpec>> {
    Concat(Concat(Concat(GenerateGetAll(p), GenerateGetAllOrderBy(p)), GenerateGetByAttr(p)),
           GenerateGetByAttrOrderByAttr(p))
  }

  /** `daoFunctions`: the methods of the generated DAO, in order. */
  function DaoFunctions(p: DaoParams): Result<seq<FunSpec>> {
    Concat(Ok(NativeRoomQueries(p)), Queries(p))
  }
}
