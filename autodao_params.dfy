/** The configuration of the DAO to generate (`AutoDaoParams`), and how it is
    extracted from the `@AutoDao` annotation and the entity class.

    The host compiler's element model is replaced by a tree of `Element`s: an
    `@Embedded` field carries the enclosed elements of its own type, so the
    recursive walk over embedded types is structural. */
module AutoDaoParams {
  import opened Types

  /** One persisted column: `collumnName` is what SQL uses, `name` the field's
      own (unprefixed) name used in identifiers. */
  datatype Attr = Attr(collumnName: string, name: string, typ: TypeRef)

  /** The parameter record as the enumerator reads it. */
  datatype DaoParams = DaoParams(
    tableName: string,
    entityType: TypeRef,
    containsRelationAnnotation: bool,
    onInsertConflictStrategy: int,
    onUpdateConflictStrategy: int,
    defaultReturnType: Shape,
    generateBlockingQueries: bool,
    generateRxQueries: bool,
    generateLiveDataQueries: bool,
    generateOnlyDefaultReturnType: bool,
    generateOrderBy: bool,
    attributes: seq<Attr>)

  // ---------------------------------------------------------------------------
  // The input: annotation values and the entity's element tree
  // ---------------------------------------------------------------------------

  /** The values written in `@AutoDao(...)`. */
  datatype AutoDao = AutoDao(
    tableName: string,
    onInsertConflictStrategy: int,
    onUpdateConflictStrategy: int,
    defaultReturnType: Shape,
    generateBlockingQueries: bool,
    generateRxQueries: bool,
    generateLiveDataQueries: bool,
    generateOnlyDefaultReturnType: bool,
    generateOrderBy: bool)

  /** An annotation with the declared defaults (ABORT, ABORT, Single, all
      shapes, order-by on); the remaining options are given. */
  function DefaultAutoDao(tableName: string, blocking: bool, rx: bool, liveData: bool): AutoDao {
    AutoDao(tableName, ABORT, ABORT, Single, blocking, rx, liveData, false, true)
  }

  datatype ElementKind = Field | Method | Constructor | OtherKind

  /** A member of a class: its kind, name and type, and the Room annotations
      the extractor looks at (`@ColumnInfo(name)`, `@Ignore`, `@Relation`,
      `@Embedded(prefix)`, plus the `static` modifier). */
  datatype Element = Element(
    kind: ElementKind,
    simpleName: string,
    typ: TypeRef,
    columnInfo: Option<string>,
    isStatic: bool,
    ignore: bool,
    relation: bool,
    embedded: Option<Embedded>)

  /** `@Embedded(prefix)` on a field, with the enclosed elements of the field's type. */
  datatype Embedded = Embedded(prefix: string, enclosed: seq<Element>)

  datatype EntityAnnotation = EntityAnnotation(tableName: string)

  /** The entity class: its name, its `@Entity` annotation if any, its members. */
  datatype EntityClass = EntityClass(qualifiedName: string, entity: Option<EntityAnnotation>, enclosed: seq<Element>)

  // ---------------------------------------------------------------------------
  // Extraction
  // ---------------------------------------------------------------------------

  /** A member becomes a column only if it is a field that is neither static,
      `@Ignore` nor `@Relation`. */
  predicate KeepNonStaticField(e: Element) {
    e.kind == Field && !e.ignore && !e.relation && !e.isStatic
  }

  predicate HasRelationAnnotation(e: Element) {
    e.kind == Field && e.relation
  }

  /** The column name is the accumulated prefix followed by the `@ColumnInfo`
      name, or by the field name when there is none. */
  function ToAttr(e: Element, prefix: string): Attr {
    Attr(prefix + e.columnInfo.GetOr(e.simpleName), e.simpleName, e.typ)
  }

  /** `getElements`: a plain field is one attribute; an embedded field is
      replaced by the kept fields of its type, with its prefix appended. */
  function GetElements(e: Element, prefix: string): seq<Attr>
    decreases e
  {
    match e.embedded
    case None => [ToAttr(e, prefix)]
    case Some(emb) => KeptElements(emb.enclosed, prefix + emb.prefix)
  }

  /** `ms.filter { keepNonStaticField(it) }.flatMap { getElements(it, prefix) }`. */
  function KeptElements(ms: seq<Element>, prefix: string): seq<Attr>
    decreases ms
  {
    if ms == [] then []
    else (if KeepNonStaticField(ms[0]) then GetElements(ms[0], prefix) else []) + KeptElements(ms[1..], prefix)
  }

  /** `enclosedElements.any { hasRelationAnnotation(it) }`. */
  function ContainsRelation(ms: seq<Element>): (b: bool)
    ensures b <==> exists i | 0 <= i < |ms| :: ms[i].kind == Field && ms[i].relation
  {
    if ms == [] then false
    else HasRelationAnnotation(ms[0]) || ContainsRelation(ms[1..])
  }

  /** An explicit non-empty table name wins; otherwise the `@Entity`
      annotation's `tableName` is used, and without that annotation
      extraction fails. */
  function ResolveTableName(option: string, c: EntityClass): (r: Result<string>)
    ensures option != "" ==> r == Ok(option)
    ensures option == "" && c.entity.Some? ==> r == Ok(c.entity.value.tableName)
    ensures r.Err? <==> option == "" && c.entity.None?
    ensures r.Err? ==> r.error == MissingTableName(c.qualifiedName)
  {
    if option == "" then
      match c.entity
      case Some(a) => Ok(a.tableName)
      case None => Err(MissingTableName(c.qualifiedName))
    else Ok(option)
  }

  /** `AutoDaoParams.from`. */
  function From(a: AutoDao, c: EntityClass): (r: Result<DaoParams>)
    ensures r.Err? <==> ResolveTableName(a.tableName, c).Err?
    ensures r.Ok? ==> r.value.tableName == ResolveTableName(a.tableName, c).value
    ensures r.Ok? ==> r.value.attributes == KeptElements(c.enclosed, "")
    ensures r.Ok? ==> (r.value.containsRelationAnnotation <==>
      exists i | 0 <= i < |c.enclosed| :: c.enclosed[i].kind == Field && c.enclosed[i].relation)
    ensures r.Ok? ==> r.value.entityType == Named(c.qualifiedName)
    ensures r.Ok? ==> r.value.onInsertConflictStrategy == a.onInsertConflictStrategy
    ensures r.Ok? ==> r.value.onUpdateConflictStrategy == a.onUpdateConflictStrategy
    ensures r.Ok? ==> r.value.defaultReturnType == a.defaultReturnType
    ensures r.Ok? ==> r.value.generateBlockingQueries == a.generateBlockingQueries
    ensures r.Ok? ==> r.value.generateRxQueries == a.generateRxQueries
    ensures r.Ok? ==> r.value.generateLiveDataQueries == a.generateLiveDataQueries
    ensures r.Ok? ==> r.value.generateOnlyDefaultReturnType == a.generateOnlyDefaultReturnType
    ensures r.Ok? ==> r.value.generateOrderBy == a.generateOrderBy
  {
    var attributes := KeptElements(c.enclosed, "");
    match ResolveTableName(a.tableName, c)
    case Err(e) => Err(e)
    case Ok(tableName) =>
      Ok(DaoParams(
        tableName := tableName,
        entityType := Named(c.qualifiedName),
        containsRelationAnnotation := ContainsRelation(c.enclosed),
        onInsertConflictStrategy := a.onInsertConflictStrategy,
        onUpdateConflictStrategy := a.onUpdateConflictStrategy,
        defaultReturnType := a.defaultReturnType,
        generateBlockingQueries := a.generateBlockingQueries,
        generateRxQueries := a.generateRxQueries,
        generateLiveDataQueries := a.generateLiveDataQueries,
        generateOnlyDefaultReturnType := a.generateOnlyDefaultReturnType,
        generateOrderBy := a.generateOrderBy,
        attributes := attributes))
  }
}
