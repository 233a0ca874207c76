# AutoRoomDao generator, modelled in Dafny

AutoRoomDao is a Kotlin annotation processor. For an abstract class annotated
`@AutoDao(entityClass = E::class, ...)` it generates a Room DAO subclass
with insert / update / delete methods and a family of typed `SELECT` queries.
This project models the two parts of the processor that carry its logic. Both
are modelled as pure functions over datatypes.

- **The DAO method enumerator** (`daoFunctions`). It maps the configuration
  record `AutoDaoParams` to the ordered list of method descriptors
  (`FunSpec`s) that KotlinPoet renders. It emits the native Room mutations
  first: six abstract blocking methods, then six Rx wrappers. Then come four
  query families:
  - get-all
  - get-all-ordered-by-attribute
  - get-by-attribute
  - get-by-attribute-ordered-by-attribute

  Each family is expanded over the return shapes (Single, Maybe, Flowable,
  LiveData), the entity's attributes, both orders, and the limit / no-limit
  variants.
- **The schema extractor** (`AutoDaoParams.from`). It reads the annotation
  and the entity class and produces that record. It resolves the table name,
  filters the members down to persisted fields, detects `@Relation`, and
  flattens `@Embedded` fields recursively, accumulating their prefixes.

A descriptor (`Descriptors.FunSpec`) holds:
- a name;
- parameters (vararg flag and default value included);
- a return type;
- the Room annotation: `@Query` with its exact SQL text, `@Insert` or
  `@Update` with the conflict-policy literal, `@Delete`, or none;
- the `@Transaction` flag;
- the abstract and protected flags;
- the dispatch routes;
- whether the body is wrapped in the `autoThread` scheduling.

A dispatcher's Kotlin body (`when (limit) ... when (order) ...`) is modelled
as routes. Each route is a limit guard, an order guard, a target name and the
call's arguments (`x` or `*x`). Overloads share a name and are told apart by
their arguments, as Kotlin resolves them. `Descriptors.Resolve` picks the
branch a call with a given `limit` and `order` takes.

Modules, in dependency order:
- `Types`: options, results, shapes, type tags and the `OnConflictStrategy` constants.
- `Seqs`: `flatMap`.
- `Naming`: `capitalize` and the order suffix.
- `Descriptors`.
- `AutoDaoParams`: the record and the extractor.
- `NativeRoomFunctions`.
- `Functions`: the enumerator.
- `QueryText`: the SQL, structurally.
- `Dispatch`: what a dispatcher calls and runs.
- `Layout`: order and counts.
- `Members`: what every emitted method looks like.
- `Extraction`: properties of the extractor.
- `Samples`: the repository's sample entities and DAOs.

Points where the model follows one file of the repository over another, or
makes an exception explicit:
- The parameter record is modelled as `Functions.kt` reads it. That is
  `defaultReturnType`, `generateOnlyDefaultReturnType` and
  `generateLiveDataQueries`. `AutoDaoParams.kt` (lines 17-29) still declares
  `defaultRxReturnType` and `generateOnlyDefaultRxReturnType` and has no
  live-data flag.
- The annotation defaults are those of `annotations/AutoDao.kt` (lines 11-15):
  ABORT, ABORT, Single, only-default off, order-by on. The other fields
  `from` reads (table name, blocking, Rx, live data) have no declared
  default there, so `AutoDaoParams.DefaultAutoDao` takes them as arguments.
- The default shape is a datatype with an `Other(className)` case for any
  class that is not one of the four wrappers. This makes the
  "Unsupported type" exception reachable; it becomes `Err(UnsupportedReturnType)`.
- The missing-table-name exception becomes `Err(MissingTableName)`.

## Model

| member | source | states |
|---|---|---|
| Types.ShapeName | autoroomdao/src/main/java/com/asaddour/autoroomdao/generators/Functions.kt:393-435 | a recognised shape's simple name is one of Single, Maybe, Flowable, LiveData |
| Naming.Capitalize | autoroomdao/src/main/java/com/asaddour/autoroomdao/generators/Functions.kt:1538 | the result has the input's length, its first letter upper-cased and the rest unchanged |
| Naming.OrderSuffixValues | autoroomdao/src/main/java/com/asaddour/autoroomdao/generators/Functions.kt:538 | `order.toLowerCase().capitalize()` is `Asc` for ASC and `Desc` for DESC, so the two orders' internal names differ |
| Descriptors.Resolve | autoroomdao/src/main/java/com/asaddour/autoroomdao/generators/Functions.kt:441-468 | the branch taken is the first route of the dispatcher whose guards hold, as `when` picks it; no branch is taken exactly when no route's guards hold |
| NativeRoomFunctions.ConflictLiteral | autoroomdao/src/main/java/com/asaddour/autoroomdao/generators/NativeRoomFunctions.kt:18-26 | REPLACE, ROLLBACK, ABORT, FAIL and IGNORE each give `OnConflictStrategy.<that name>`; the literal is ABORT exactly when the strategy is none of the other four; every result is one of the five Room literals |
| NativeRoomFunctions.ConflictLiteralInjective | autoroomdao/src/main/java/com/asaddour/autoroomdao/generators/NativeRoomFunctions.kt:18-26 | distinct recognised strategies map to distinct literals |
| NativeRoomFunctions.BlockingShape | autoroomdao/src/main/java/com/asaddour/autoroomdao/generators/NativeRoomFunctions.kt:28-87 | six public abstract blocking methods, in order `addBlocking(obj)`, `addBlocking(vararg obj)`, `updateBlocking(obj)`, `deleteBlocking(obj)`, `deleteBlocking(vararg obj)`, `deleteAllBlocking()`, where `obj` has the entity type. Return types: Long for one insert, List<Long> for the vararg insert, Int for update and deletes. Inserts carry the insert policy, update carries the update policy, deletes carry none. `deleteAllBlocking` is the parameterless `DELETE FROM <table>` query |
| NativeRoomFunctions.RxWrapsBlocking | autoroomdao/src/main/java/com/asaddour/autoroomdao/generators/NativeRoomFunctions.kt:94-140 | each Rx wrapper has its blocking counterpart's name without `Blocking`, the same parameters plus `autoThread`, and the return type wrapped in Single; it is wrapped in the scheduling, and its one branch calls the counterpart with the same arity |
| NativeRoomFunctions.NativeOverloads | autoroomdao/src/main/java/com/asaddour/autoroomdao/generators/NativeRoomFunctions.kt:28-78 | `addBlocking` and `delete` names repeat; the (name, vararg-ness) signatures of all twelve native methods are pairwise distinct |
| QueryText.ParamNames | autoroomdao/src/main/java/com/asaddour/autoroomdao/generators/Functions.kt:360-391 | the parameter names of a method, in order |
| QueryText.GetAllQueries | autoroomdao/src/main/java/com/asaddour/autoroomdao/generators/Functions.kt:360-391 | `getAllAs<S>_` is a protected abstract `@Query` over `SELECT * FROM <table>`, with or without ` LIMIT :limit`. It has exactly the query's bind variables as parameters, and `@Transaction` exactly with relations |
| QueryText.GetAllOrderByQueries | autoroomdao/src/main/java/com/asaddour/autoroomdao/generators/Functions.kt:509-529 | the ordered internal method runs `SELECT * FROM <table> ORDER BY <column> ASC\|DESC`, with no parameters |
| QueryText.GetAllOrderByLimitQueries | autoroomdao/src/main/java/com/asaddour/autoroomdao/generators/Functions.kt:591-611 | the limit overload runs the same query followed by ` LIMIT :limit`, with the single parameter `limit` |
| QueryText.GetByQueries | autoroomdao/src/main/java/com/asaddour/autoroomdao/generators/Functions.kt:1540-1637 | the get-by internal method runs `SELECT * FROM <table> WHERE <column> IN (:<name>s)` and its one parameter is `vararg <name>s` of the attribute's type |
| QueryText.GetByLimitQueries | autoroomdao/src/main/java/com/asaddour/autoroomdao/generators/Functions.kt:1540-1637 | its limit overload runs the same query followed by ` LIMIT :limit` and takes `vararg <name>s` then `limit: Int` |
| QueryText.GetByOrderByQueries | autoroomdao/src/main/java/com/asaddour/autoroomdao/generators/Functions.kt:993-1038 | the get-by-ordered internal method filters on the first attribute's column, sorts by the second's in the given order, and binds `<name>s` of the first |
| QueryText.GetByOrderByLimitQueries | autoroomdao/src/main/java/com/asaddour/autoroomdao/generators/Functions.kt:993-1038 | its limit overload runs the same query followed by ` LIMIT :limit` and binds `<name>s` then `limit` |
| Dispatch.PlainGroupDispatch | autoroomdao/src/main/java/com/asaddour/autoroomdao/generators/Functions.kt:441-468 | in a three-method group, `limit == 0` takes the first branch and calls exactly the no-limit overload; any other limit calls exactly the limit overload |
| Dispatch.OrderedGroupDispatch | autoroomdao/src/main/java/com/asaddour/autoroomdao/generators/Functions.kt:901-939 | in a five-method group, the (limit, order) pair takes one branch, which calls exactly the internal method for that order and limit variant |
| Dispatch.PlainGroupForwards | autoroomdao/src/main/java/com/asaddour/autoroomdao/generators/Functions.kt:456-461 | every branch of a three-method group's dispatcher calls an abstract method of the group |
| Dispatch.OrderedGroupForwards | autoroomdao/src/main/java/com/asaddour/autoroomdao/generators/Functions.kt:918-931 | every branch of a five-method group's dispatcher calls an abstract method of the group |
| Dispatch.GetAllGroupShape | autoroomdao/src/main/java/com/asaddour/autoroomdao/generators/Functions.kt:47-70 | `getAllAs<S>_()`, `getAllAs<S>_(limit)` and `getAll…` form a three-method group |
| Dispatch.GetAllOrderByGroupShape | autoroomdao/src/main/java/com/asaddour/autoroomdao/generators/Functions.kt:101-110 | the Asc, Desc, Asc-limit and Desc-limit internal methods and the ordered dispatcher of one attribute form a five-method group |
| Dispatch.GetByGroupShape | autoroomdao/src/main/java/com/asaddour/autoroomdao/generators/Functions.kt:173-180 | the get-by internal methods and dispatcher of one attribute form a three-method group over `vararg <name>s`, forwarded as `*<name>s` |
| Dispatch.GetByOrderByGroupShape | autoroomdao/src/main/java/com/asaddour/autoroomdao/generators/Functions.kt:230-241 | the get-by-ordered methods of one (filter, order) attribute pair form a five-method group |
| Dispatch.GetAllDispatch | autoroomdao/src/main/java/com/asaddour/autoroomdao/generators/Functions.kt:441-502 | `getAll(limit)` calls exactly `getAllAs<S>_()` when the limit is 0 and `getAllAs<S>_(limit)` otherwise; the method called runs the requested query |
| Dispatch.GetAllOrderedByDispatch | autoroomdao/src/main/java/com/asaddour/autoroomdao/generators/Functions.kt:901-981 | `getAllOrderedBy<A>(limit, order)` calls exactly the internal method for that order, with or without the limit; it sorts by A's column in that order |
| Dispatch.GetByDispatch | autoroomdao/src/main/java/com/asaddour/autoroomdao/generators/Functions.kt:1695-1767 | `getBy<A>(vararg values, limit)` calls exactly the `IN` query with or without the limit, forwarding the spread values |
| Dispatch.GetByOrderedByDispatch | autoroomdao/src/main/java/com/asaddour/autoroomdao/generators/Functions.kt:1437-1531 | `getBy<A>OrderedBy<B>` calls exactly the query filtering on A and sorting on B in the requested order, with or without the limit |
| Layout.ShapeSelection | autoroomdao/src/main/java/com/asaddour/autoroomdao/generators/Functions.kt:71-97 | generation fails exactly in only-default mode with an unrecognised default, and then with that shape as the error. Otherwise a shape is emitted iff it was requested: the default in only-default mode, else Single, Maybe and Flowable with Rx and LiveData with live data. The emitted shapes are recognised and distinct |
| Layout.ForShapesLayout | autoroomdao/src/main/java/com/asaddour/autoroomdao/generators/Functions.kt:71-97 | each family is its per-shape block over the emitted shapes, in order, or fails with the shape selection |
| Layout.BlockLength | autoroomdao/src/main/java/com/asaddour/autoroomdao/generators/Functions.kt:47-305 | per shape: get-all has 3 methods; get-all-ordered 5 per attribute; get-by 3 per attribute; get-by-ordered 5 per pair of attributes |
| Layout.GetAllOrderByAt | autoroomdao/src/main/java/com/asaddour/autoroomdao/generators/Functions.kt:101-110 | the get-all-ordered block is attribute by attribute, in declaration order, five methods each |
| Layout.GetByAt | autoroomdao/src/main/java/com/asaddour/autoroomdao/generators/Functions.kt:173-180 | the get-by block is attribute by attribute, three methods each |
| Layout.GetByOrderByAt | autoroomdao/src/main/java/com/asaddour/autoroomdao/generators/Functions.kt:230-241 | in the get-by-ordered block the filter attribute is the outer loop and the order attribute the inner one, all pairs included (a pair with itself too), five methods per pair |
| Layout.NativeLength | autoroomdao/src/main/java/com/asaddour/autoroomdao/generators/Functions.kt:308-345 | none with `@Relation`; otherwise 6 blocking plus 6 Rx methods as enabled, the blocking list (when enabled) first and the Rx list (when enabled) last |
| Layout.QueriesLayout | autoroomdao/src/main/java/com/asaddour/autoroomdao/generators/Functions.kt:347-353 | the queries are get-all, get-all-ordered (if order-by), get-by, get-by-ordered (if order-by), each over the emitted shapes; they fail exactly when the shape selection fails |
| Layout.DaoFunctionsLayout | autoroomdao/src/main/java/com/asaddour/autoroomdao/generators/Functions.kt:9-20 | `daoFunctions` fails exactly on an unrecognised default in only-default mode; otherwise it is the native methods followed by the query layout |
| Layout.QueryLayoutLength | autoroomdao/src/main/java/com/asaddour/autoroomdao/generators/Functions.kt:347-353 | the query list has `shapes * (3 + 3n + [5n + 5n²])` methods, the bracket only with order-by |
| Layout.DaoFunctionsCount | autoroomdao/src/main/java/com/asaddour/autoroomdao/generators/Functions.kt:9-20 | the DAO has the native count plus that many query methods |
| Members.PublicNameRule | autoroomdao/src/main/java/com/asaddour/autoroomdao/generators/Functions.kt:470-502 | the public name is bare iff the shape is the default, and `<base>As<Shape>` otherwise |
| Members.PublicNamesDistinct | autoroomdao/src/main/java/com/asaddour/autoroomdao/generators/Functions.kt:470-502 | within a family, two different recognised shapes never get the same public name |
| Members.DispatcherNames | autoroomdao/src/main/java/com/asaddour/autoroomdao/generators/Functions.kt:941-981 | `getAll`, `getAllOrderedBy<A>`, `getBy<A>` and `getBy<A>OrderedBy<B>` are the public names exactly for the default shape |
| Members.DispatcherThreading | autoroomdao/src/main/java/com/asaddour/autoroomdao/generators/Functions.kt:27-40 | a dispatcher takes `autoThread` last and is wrapped exactly when its shape is Single or Maybe; otherwise it has neither |
| Members.GetAllGroupMembers | autoroomdao/src/main/java/com/asaddour/autoroomdao/generators/Functions.kt:360-502 | each get-all method is a query method of its shape. Internal ones are protected abstract `@Query` methods, `@Transaction` iff relations. Dispatchers are public with `limit = 0` and the autoThread rule. Dispatchers forward into their group |
| Members.GetAllOrderByGroupMembers | autoroomdao/src/main/java/com/asaddour/autoroomdao/generators/Functions.kt:509-981 | the same for each ordered get-all group |
| Members.GetByGroupMembers | autoroomdao/src/main/java/com/asaddour/autoroomdao/generators/Functions.kt:1540-1767 | the same for each get-by group |
| Members.GetByOrderByGroupMembers | autoroomdao/src/main/java/com/asaddour/autoroomdao/generators/Functions.kt:993-1531 | the same for each get-by-ordered group |
| Members.BlockMembers | autoroomdao/src/main/java/com/asaddour/autoroomdao/generators/Functions.kt:47-305 | every method of a family's block for one shape is a query method of that shape, and its dispatchers forward only into that block |
| Members.QueriesMember | autoroomdao/src/main/java/com/asaddour/autoroomdao/generators/Functions.kt:347-353 | every query method belongs to an emitted shape, and every dispatcher forwards only to abstract methods the DAO declares |
| Members.DaoMember | autoroomdao/src/main/java/com/asaddour/autoroomdao/generators/Functions.kt:308-345 | a method is `@Transaction` iff the entity has relations and the method is abstract; with relations, every method is a query method or a dispatcher |
| Members.NativesFirst | autoroomdao/src/main/java/com/asaddour/autoroomdao/generators/Functions.kt:9-20 | the native methods are the DAO's first methods |
| Members.RxWithBlocking | autoroomdao/src/main/java/com/asaddour/autoroomdao/generators/Functions.kt:313-341 | with blocking and Rx on, each Rx wrapper is declared and forwards to a declared blocking method |
| Members.RxWithoutBlocking | autoroomdao/src/main/java/com/asaddour/autoroomdao/generators/Functions.kt:313-341 | with Rx on and blocking off, each Rx wrapper is declared but calls no method the DAO declares |
| AutoDaoParams.ContainsRelation | autoroomdao/src/main/java/com/asaddour/autoroomdao/models/AutoDaoParams.kt:112-115 | true iff some member is a field carrying `@Relation` |
| AutoDaoParams.ResolveTableName | autoroomdao/src/main/java/com/asaddour/autoroomdao/models/AutoDaoParams.kt:74-82 | a non-empty explicit name wins; otherwise the `@Entity` table name is used; it fails, naming the class, exactly when there is neither |
| AutoDaoParams.From | autoroomdao/src/main/java/com/asaddour/autoroomdao/models/AutoDaoParams.kt:30-97 | fails exactly when the table name cannot be resolved. Otherwise: the resolved table name, the kept and flattened attributes, `@Relation` detection on the members, the entity type, and the conflict strategies, default shape and the five generation flags (blocking, Rx, live data, only-default, order-by) copied from the annotation |
| Extraction.KeptElementsAppend | autoroomdao/src/main/java/com/asaddour/autoroomdao/models/AutoDaoParams.kt:50-72 | the attributes of concatenated member lists are the concatenated attributes, so members are processed in declaration order |
| Extraction.DroppedMember | autoroomdao/src/main/java/com/asaddour/autoroomdao/models/AutoDaoParams.kt:99-110 | a member that is not a non-static, non-`@Ignore`, non-`@Relation` field contributes nothing at its position |
| Extraction.KeptMember | autoroomdao/src/main/java/com/asaddour/autoroomdao/models/AutoDaoParams.kt:50-72 | a kept field contributes its own attributes at its position, with an embedded type's attributes inlined there |
| Extraction.KeptElementsPrefix | autoroomdao/src/main/java/com/asaddour/autoroomdao/models/AutoDaoParams.kt:53-69 | walking under `pre + pre2` is walking under `pre2` and then prefixing every column with `pre` |
| Extraction.PrefixAccumulates | autoroomdao/src/main/java/com/asaddour/autoroomdao/models/AutoDaoParams.kt:53-69 | the attributes under a prefix are the unprefixed ones with the prefix in front of each column name; names and types are untouched |
| Extraction.KeptElementsOrigin | autoroomdao/src/main/java/com/asaddour/autoroomdao/models/AutoDaoParams.kt:53-69 | every attribute walked from a member list is `toAttr(l, col)` of a leaf `l` reached from that list through kept fields, `col` being the prefixes of the `@Embedded` fields on the way |
| Extraction.ReachedLeaf | autoroomdao/src/main/java/com/asaddour/autoroomdao/models/AutoDaoParams.kt:53-69 | a reached element is a non-embedded field that is neither static, `@Ignore` nor `@Relation`, and its column prefix extends the starting prefix |
| Extraction.KeptElementsComplete | autoroomdao/src/main/java/com/asaddour/autoroomdao/models/AutoDaoParams.kt:53-69 | every leaf reached through kept fields yields its `toAttr` under the accumulated prefix |
| Extraction.AttributeOrigin | autoroomdao/src/main/java/com/asaddour/autoroomdao/models/AutoDaoParams.kt:50-72 | an attribute is extracted iff it is `toAttr(l, col)` of a leaf `l` reached from the entity's members through kept fields, `col` being the accumulated `@Embedded` prefixes |
| Extraction.KeptFields | autoroomdao/src/main/java/com/asaddour/autoroomdao/models/AutoDaoParams.kt:50-51 | the kept fields are exactly the members that pass `keepNonStaticField` |
| Extraction.KeptFieldsSingle | autoroomdao/src/main/java/com/asaddour/autoroomdao/models/AutoDaoParams.kt:50-51 | one member is kept iff it passes `keepNonStaticField` |
| Extraction.KeptFieldsAppend | autoroomdao/src/main/java/com/asaddour/autoroomdao/models/AutoDaoParams.kt:50-51 | filtering a concatenation is concatenating the filtered parts, so declaration order and multiplicity are kept |
| Extraction.FlatEntity | autoroomdao/src/main/java/com/asaddour/autoroomdao/models/AutoDaoParams.kt:50-72 | without `@Embedded` fields, extraction is one `toAttr` per kept field, in declaration order |
| Samples.UserExtraction | dao/src/main/java/com/asaddour/autoroomdao/models/User.kt:8-17 | `User` gives table `users` and three attributes: `id`, `remote_id`/`remoteId` and `name`. `@Ignore job`, the getter and the constructor are dropped |
| Samples.UserDaoCount | dao/src/main/java/com/asaddour/autoroomdao/dao/UserDao.kt:7-9 | with every shape on, `UserDao` has 300 methods |
| Samples.UserDaoOrderedQuery | dao/src/main/java/com/asaddour/autoroomdao/dao/UserDao.kt:7-9 | the Flowable internal method ordered by `remote_id` with a limit is `getAllOrderByRemoteIdAsFlowableAsc_` running `SELECT * FROM users ORDER BY remote_id ASC LIMIT :limit` |
| Samples.UserDaoOrderedDispatchers | dao/src/main/java/com/asaddour/autoroomdao/dao/UserDao.kt:7-9 | with Flowable as the default, the dispatcher is `getAllOrderedByRemoteId` for Flowable and `getAllOrderedByRemoteIdAsSingle` for Single |
| Samples.CompleteUserExtraction | dao/src/main/java/com/asaddour/sampledao/models/CompleteUser.kt:6-13 | the embedded `User` gives its three columns unprefixed and the relation field none, and the relation is detected. Without the explicit table name, extraction fails |
| Samples.CompleteUserDao | dao/src/main/java/com/asaddour/sampledao/dao/CompleteCarDao.kt:6-11 | `CompleteUserDao` has no native mutations, and exactly its abstract methods are `@Transaction` |
| Samples.CarDaoMethods | dao/src/main/java/com/asaddour/sampledao/dao/CarDao.kt:12-22 | only-default Single without order-by gives 24 methods, and the public get-all is the bare `getAll(limit, autoThread)` |
| Samples.UnsupportedDefault | autoroomdao/src/main/java/com/asaddour/autoroomdao/generators/Functions.kt:79-83 | an unrecognised default in only-default mode aborts generation with that shape |

## Left out

- KotlinPoet rendering is not modelled: rendering to Kotlin text, the file and import structure,
  and the literal text of dispatcher and Rx bodies. Bodies are modelled as routes (guard, target,
  arguments). The `when (autoThread)` wrapper is a flag.
- The processor driver (`AutoDaoProcessor.kt`) is not modelled: annotation rounds, the
  class-only check, the `Order` enum file, the output directory. `DaoMetaData` and
  `ProcessorMetaData` are plain records around reflection, and are left out too.
- `javaToKotlinType` is a lookup in the Kotlin compiler's class map. Attribute types are passed
  through unchanged as opaque `TypeRef`s.
- The host compiler's element model (`getTypeElement`, `getAnnotation`) is replaced by a tree
  in which an `@Embedded` field carries the members of its type.
- `@ColumnInfo`'s name is taken as given. Room's placeholder for an absent name is not part of
  this model.
- The Rx scheduling (`subscribeOn` / `observeOn`) is runtime behaviour of the generated code.
- Naming.Capitalize: works on ASCII letters only. Kotlin's `capitalize()` handles
  Unicode title case.
- Shape equality: Kotlin compares `TypeName`s; the model compares shapes. Two `Other`
  classes are equal when their class names are.
- Members.QueriesMember: does not claim that public names are unique across the DAO. The code
  does not ensure it. Native overloads share names (NativeRoomFunctions.NativeOverloads), and
  attribute names can make `getBy<X>` collide with `getBy<A>OrderedBy<B>`. Uniqueness is
  proved only per family and shape pair (Members.PublicNamesDistinct).
- Members.RxWithoutBlocking: with blocking off, the Rx wrappers are emitted anyway and call
  `...Blocking` methods that are not declared. The lemma states this; it is not repaired.
- AutoDaoParams.ContainsRelation: `@Relation` is looked for only among the entity's own
  members, not inside embedded types, as the code does. Relation fields at any depth are still
  excluded from the attributes.
- AutoDaoParams.From: the live-data flag and only-default flag are copied from the annotation
  model. The revision of `AutoDaoParams.kt` in the repository does not carry them (see above).
