/** The sample entities and DAOs of the repository, run through the model:
    `User` with `UserDao`, `CompleteUser` with `CompleteUserDao`, and `Car`
    with `CarDao`. */
module Samples {
  import opened Types
  import opened Seqs
  import opened Descriptors
  import opened AutoDaoParams
  import opened NativeRoomFunctions
  import opened Functions
  import opened Layout
  import opened QueryText
  import opened Members

  const StringType := Named("java.lang.String")
  const UserClassName := "com.asaddour.autoroomdao.models.User"

  function PlainField(name: string, typ: TypeRef): Element {
    Element(Field, name, typ, None, false, false, false, None)
  }

  /** `User`'s members as the compiler lists them: the four backing fields,
      a getter and the constructor. */
  function UserMembers(): seq<Element> {
    [PlainField("id", IntType),
     Element(Field, "remoteId", IntType, Some("remote_id"), false, false, false, None),
     PlainField("name", StringType),
     Element(Field, "job", StringType, None, false, true, false, None),
     Element(Method, "getId", IntType, None, false, false, false, None),
     Element(Constructor, "<init>", Named(UserClassName), None, false, false, false, None)]
  }

  function UserClass(): EntityClass {
    EntityClass(UserClassName, Some(EntityAnnotation("users")), UserMembers())
  }

  function UserAttrs(): seq<Attr> {
    [Attr("id", "id", IntType), Attr("remote_id", "remoteId", IntType), Attr("name", "name", StringType)]
  }

  /** `@AutoDao(User::class, defaultRxReturnType = Flowable::class, generateOrderBy = true)`,
      with every shape switched on. */
  function UserDaoAnnotation(): AutoDao {
    AutoDao("", ABORT, ABORT, Flowable, true, true, true, false, true)
  }

  function UserDaoParams(): DaoParams {
    DaoParams("users", Named(UserClassName), false, ABORT, ABORT, Flowable, true, true, true, false, true, UserAttrs())
  }

  /** `@Ignore job`, the getter and the constructor are dropped; `remoteId`
      takes its column from `@ColumnInfo`; the table comes from `@Entity`. */
  lemma UserExtraction()
    ensures From(UserDaoAnnotation(), UserClass()) == Ok(UserDaoParams())
  {
    var ms := UserMembers();
    assert KeptElements(ms[3..], "") == [] by {
      assert ms[3..][1..] == ms[4..] && ms[4..][1..] == ms[5..] && ms[5..][1..] == [];
      assert KeptElements(ms[5..], "") == [];
      assert KeptElements(ms[4..], "") == [];
    }
    assert KeptElements(ms[2..], "") == [UserAttrs()[2]] by {
      assert ms[2..][1..] == ms[3..];
      assert "" + "name" == "name";
    }
    assert KeptElements(ms[1..], "") == UserAttrs()[1..] by {
      assert ms[1..][1..] == ms[2..];
      assert "" + "remote_id" == "remote_id";
    }
    assert KeptElements(ms, "") == UserAttrs() by {
      assert "" + "id" == "id";
    }
    assert !ContainsRelation(ms) by {
      assert forall i | 0 <= i < |ms| :: !ms[i].relation;
    }
  }

  /** With every shape and order-by on and no relation: 12 native methods
      and 72 query methods per shape for a three-column entity. */
  lemma AllShapesCount(p: DaoParams)
    requires !p.containsRelationAnnotation && p.generateBlockingQueries && p.generateRxQueries
    requires p.generateLiveDataQueries && !p.generateOnlyDefaultReturnType && p.generateOrderBy
    requires |p.attributes| == 3
    ensures DaoFunctions(p).Ok? && |DaoFunctions(p).value| == 300
  {
    AllShapesOk(p);
    AllShapesProduct(p);
    DaoFunctionsCount(p);
  }

  lemma AllShapesProduct(p: DaoParams)
    requires p.generateRxQueries && p.generateLiveDataQueries && !p.generateOnlyDefaultReturnType
    requires p.generateOrderBy && |p.attributes| == 3
    ensures |EmittedShapes(p).value| * PerShape(p) == 288
  {
    assert |EmittedShapes(p).value| == 4;
    PerShapeThree(p);
  }

  lemma AllShapesOk(p: DaoParams)
    requires !p.generateOnlyDefaultReturnType
    ensures DaoFunctions(p).Ok?
  {
    DaoFunctionsLayout(p);
  }

  lemma PerShapeThree(p: DaoParams)
    requires |p.attributes| == 3 && p.generateOrderBy
    ensures PerShape(p) == 72
  {
    var n := |p.attributes|;
    assert 5 * n * n == 45;
  }

  /** For `UserDao`: 300 methods over four shapes. */
  lemma UserDaoCount()
    ensures DaoFunctions(UserDaoParams()).Ok?
    ensures |DaoFunctions(UserDaoParams()).value| == 300
  {
    AllShapesCount(UserDaoParams());
  }

  /** The Flowable internal method ordered by a `remote_id` column, with a
      limit: its name and its SQL. */
  lemma RemoteIdOrderedQuery(p: DaoParams, remoteId: Attr)
    requires p.tableName == "users" && remoteId.collumnName == "remote_id" && remoteId.name == "remoteId"
    ensures GetAllOrderByLimitInternal(p, Flowable, remoteId, ASC).name == "getAllOrderByRemoteIdAsFlowableAsc_"
    ensures RunsQuery(p, GetAllOrderByLimitInternal(p, Flowable, remoteId, ASC),
                      Select("users", None, Some(Ordering(remoteId, ASC)), true))
    ensures SelectText(Select("users", None, Some(Ordering(remoteId, ASC)), true)) == "SELECT * FROM users ORDER BY remote_id ASC LIMIT :limit"
  {
    RemoteIdName(p, remoteId);
    GetAllOrderByLimitQueries(p, Flowable, remoteId, ASC);
    RemoteIdText(remoteId);
  }

  lemma RemoteIdName(p: DaoParams, remoteId: Attr)
    requires remoteId.name == "remoteId"
    ensures GetAllOrderByLimitInternal(p, Flowable, remoteId, ASC).name == "getAllOrderByRemoteIdAsFlowableAsc_"
  {
    assert Naming.Capitalize("remoteId") == "RemoteId";
    Naming.OrderSuffixValues();
  }

  lemma RemoteIdText(remoteId: Attr)
    requires remoteId.collumnName == "remote_id"
    ensures SelectText(Select("users", None, Some(Ordering(remoteId, ASC)), true)) == "SELECT * FROM users ORDER BY remote_id ASC LIMIT :limit"
  {
  }

  lemma UserDaoOrderedQuery()
    ensures var remoteId := UserAttrs()[1];
      && GetAllOrderByLimitInternal(UserDaoParams(), Flowable, remoteId, ASC).name == "getAllOrderByRemoteIdAsFlowableAsc_"
      && RunsQuery(UserDaoParams(), GetAllOrderByLimitInternal(UserDaoParams(), Flowable, remoteId, ASC),
                   Select("users", None, Some(Ordering(remoteId, ASC)), true))
      && SelectText(Select("users", None, Some(Ordering(remoteId, ASC)), true)) == "SELECT * FROM users ORDER BY remote_id ASC LIMIT :limit"
  {
    RemoteIdOrderedQuery(UserDaoParams(), UserAttrs()[1]);
  }

  /** The public ordered dispatchers of `UserDao`: bare for the Flowable
      default, suffixed for Single. */
  lemma UserDaoOrderedDispatchers()
    ensures var remoteId := UserAttrs()[1];
      && GetAllOrderedByDispatcher(UserDaoParams(), Flowable, remoteId).name == "getAllOrderedByRemoteId"
      && GetAllOrderedByDispatcher(UserDaoParams(), Single, remoteId).name == "getAllOrderedByRemoteIdAsSingle"
  {
    RemoteIdDispatchers(UserDaoParams(), UserAttrs()[1]);
  }

  lemma RemoteIdDispatchers(p: DaoParams, remoteId: Attr)
    requires p.defaultReturnType == Flowable && remoteId.name == "remoteId"
    ensures GetAllOrderedByDispatcher(p, Flowable, remoteId).name == "getAllOrderedByRemoteId"
    ensures GetAllOrderedByDispatcher(p, Single, remoteId).name == "getAllOrderedByRemoteIdAsSingle"
  {
    var base := "getAllOrderedBy" + Naming.Capitalize(remoteId.name);
    assert base == "getAllOrderedByRemoteId" by {
      assert Naming.Capitalize("remoteId") == "RemoteId";
    }
    assert PublicName(p, Flowable, base) == base;
    assert PublicName(p, Single, base) == base + "As" + "Single";
  }

  const CompleteUserClassName := "com.asaddour.sampledao.models.CompleteUser"

  /** `CompleteUser`: an `@Embedded user` and a `@Relation cars`, no `@Entity`. */
  function CompleteUserClass(): EntityClass {
    EntityClass(CompleteUserClassName, None,
      [Element(Field, "user", Named(UserClassName), None, false, false, false, Some(Embedded("", UserMembers()))),
       Element(Field, "cars", ListOf(Named("com.asaddour.sampledao.models.Car")), None, false, false, true, None)])
  }

  /** `@AutoDao(entityClass = CompleteUser::class, tableName = "users")`. */
  function CompleteUserDaoAnnotation(): AutoDao {
    AutoDao("users", ABORT, ABORT, Single, true, true, true, false, true)
  }

  /** The embedded `User` contributes its three columns unprefixed and the
      relation field none, and the relation is detected. Without the explicit
      table name extraction fails. */
  lemma CompleteUserExtraction()
    ensures From(CompleteUserDaoAnnotation(), CompleteUserClass()).Ok?
    ensures var p := From(CompleteUserDaoAnnotation(), CompleteUserClass()).value;
      && p.tableName == "users"
      && p.attributes == UserAttrs()
      && p.containsRelationAnnotation
      && !p.generateOnlyDefaultReturnType
    ensures From(CompleteUserDaoAnnotation().(tableName := ""), CompleteUserClass()) == Err(MissingTableName(CompleteUserClassName))
  {
    var ms := CompleteUserClass().enclosed;
    assert KeptElements(ms, "") == UserAttrs() by {
      UserExtraction();
      assert ms[1..][1..] == [];
      assert "" + "" == "";
      assert UserAttrs() + [] == UserAttrs();
    }
    assert ms[1].kind == Field && ms[1].relation;
  }

  /** `CompleteUserDao` has no native mutations, and its abstract methods,
      and only those, are `@Transaction`. */
  lemma CompleteUserDao()
    ensures var p := From(CompleteUserDaoAnnotation(), CompleteUserClass()).value;
      && NativeRoomQueries(p) == []
      && DaoFunctions(p).Ok?
      && forall f | f in DaoFunctions(p).value :: f.transaction <==> f.isAbstract
  {
    CompleteUserExtraction();
    RelationDao(From(CompleteUserDaoAnnotation(), CompleteUserClass()).value);
  }

  lemma RelationDao(p: DaoParams)
    requires p.containsRelationAnnotation && !p.generateOnlyDefaultReturnType
    ensures NativeRoomQueries(p) == [] && DaoFunctions(p).Ok?
    ensures forall f | f in DaoFunctions(p).value :: f.transaction <==> f.isAbstract
  {
    assert DaoFunctions(p).Ok? by {
      DaoFunctionsLayout(p);
    }
    forall f | f in DaoFunctions(p).value ensures f.transaction <==> f.isAbstract {
      DaoMember(p, f);
    }
  }

  const CarClassName := "com.asaddour.sampledao.models.Car"

  function CarClass(): EntityClass {
    EntityClass(CarClassName, Some(EntityAnnotation("cars")),
      [PlainField("id", LongType), PlainField("userId", LongType), PlainField("name", StringType)])
  }

  /** `@AutoDao(entityClass = Car::class, defaultReturnType = Single::class,
      generateOnlyDefaultReturnType = true, generateOrderBy = false)`. */
  function CarDaoAnnotation(): AutoDao {
    AutoDao("", ABORT, ABORT, Single, true, true, true, true, false)
  }

  /** Only the Single shape and no ordered families: 12 native methods, get-all
      (3) and get-by (3 per attribute). The public get-all method is the
      bare `getAll`, taking `autoThread` last. */
  lemma CarDaoMethods()
    ensures From(CarDaoAnnotation(), CarClass()).Ok?
    ensures var p := From(CarDaoAnnotation(), CarClass()).value;
      && EmittedShapes(p) == Ok([Single])
      && DaoFunctions(p).Ok?
      && |DaoFunctions(p).value| == 24
      && GetAllDispatcher(p, Single).name == "getAll"
      && GetAllDispatcher(p, Single).params == [LimitDefaultParam, AutoThreadParam]
  {
    var ms := CarClass().enclosed;
    assert ms[1..][1..][1..] == [];
    var p := From(CarDaoAnnotation(), CarClass()).value;
    assert |p.attributes| == 3;
    DaoFunctionsCount(p);
    assert PerShape(p) == 12;
  }

  /** In only-default mode an unrecognised default shape aborts generation. */
  lemma UnsupportedDefault()
    ensures var p := UserDaoParams().(defaultReturnType := Other("io.reactivex.Observable"), generateOnlyDefaultReturnType := true);
      DaoFunctions(p) == Err(UnsupportedReturnType(Other("io.reactivex.Observable")))
  {
    var p := UserDaoParams().(defaultReturnType := Other("io.reactivex.Observable"), generateOnlyDefaultReturnType := true);
    DaoFunctionsLayout(p);
  }
}
