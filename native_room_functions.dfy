/** Room's own mutation methods: six abstract blocking methods annotated
    `@Insert`, `@Update`, `@Delete` and `@Query("DELETE FROM ...")`, and six
    Rx wrappers that run them through `Single.fromCallable`. */
module NativeRoomFunctions {
  import opened Types
  import opened Descriptors
  import opened AutoDaoParams

  /** `generateOnConflictStrategyAsString`: each Room strategy maps to its own
      literal, and any other integer falls back to ABORT. */
  function ConflictLiteral(strategy: int): (r: string)
    ensures strategy == REPLACE ==> r == "OnConflictStrategy.REPLACE"
    ensures strategy == ROLLBACK ==> r == "OnConflictStrategy.ROLLBACK"
    ensures strategy == ABORT ==> r == "OnConflictStrategy.ABORT"
    ensures strategy == FAIL ==> r == "OnConflictStrategy.FAIL"
    ensures strategy == IGNORE ==> r == "OnConflictStrategy.IGNORE"
    ensures r == "OnConflictStrategy.ABORT" <==> strategy !in {REPLACE, ROLLBACK, FAIL, IGNORE}
    ensures r in ["OnConflictStrategy.REPLACE", "OnConflictStrategy.ROLLBACK", "OnConflictStrategy.ABORT",
                  "OnConflictStrategy.FAIL", "OnConflictStrategy.IGNORE"]
  {
    if strategy == REPLACE then "OnConflictStrategy.REPLACE"
    else if strategy == ROLLBACK then "OnConflictStrategy.ROLLBACK"
    else if strategy == ABORT then "OnConflictStrategy.ABORT"
    else if strategy == FAIL then "OnConflictStrategy.FAIL"
    else if strategy == IGNORE then "OnConflictStrategy.IGNORE"
    else "OnConflictStrategy.ABORT"
  }

  /** Distinct recognised strategies never share a literal. */
  lemma ConflictLiteralInjective(i: int, j: int)
    requires i in {REPLACE, ROLLBACK, ABORT, FAIL, IGNORE} && j in {REPLACE, ROLLBACK, ABORT, FAIL, IGNORE}
    requires ConflictLiteral(i) == ConflictLiteral(j)
    ensures i == j
  {
  }

  /** The `obj` parameter, single or `vararg`. */
  function ObjParam(p: DaoParams, vararg: bool): Param {
    Param("obj", p.entityType, vararg, None)
  }

  /** An abstract, public, Room-annotated method. */
  function AbstractNative(name: string, params: seq<Param>, ret: TypeRef, ann: Annotation): FunSpec {
    FunSpec(name, params, ret, ann, false, true, false, [], false)
  }

  function InsertObjBlocking(p: DaoParams): FunSpec {
    AbstractNative("addBlocking", [ObjParam(p, false)], LongType, InsertAnn(ConflictLiteral(p.onInsertConflictStrategy)))
  }

  function InsertObjsBlocking(p: DaoParams): FunSpec {
    AbstractNative("addBlocking", [ObjParam(p, true)], ListOf(LongType), InsertAnn(ConflictLiteral(p.onInsertConflictStrategy)))
  }

  function UpdateObjBlocking(p: DaoParams): FunSpec {
    AbstractNative("updateBlocking", [ObjParam(p, false)], IntType, UpdateAnn(ConflictLiteral(p.onUpdateConflictStrategy)))
  }

  function DeleteObjBlocking(p: DaoParams): FunSpec {
    AbstractNative("deleteBlocking", [ObjParam(p, false)], IntType, DeleteAnn)
  }

  function DeleteObjsBlocking(p: DaoParams): FunSpec {
    AbstractNative("deleteBlocking", [ObjParam(p, true)], IntType, DeleteAnn)
  }

  function DeleteAllBlocking(p: DaoParams): FunSpec {
    AbstractNative("deleteAllBlocking", [], IntType, QueryAnn("DELETE FROM " + p.tableName))
  }

  /** A concrete wrapper `name(params, autoThread = true): Single<ret>` whose
      body is `Single.fromCallable({ target(args) })` under the scheduling wrapper. */
  function RxWrapper(name: string, params: seq<Param>, ret: TypeRef, target: string, args: seq<Arg>): FunSpec {
    FunSpec(name, params + [AutoThreadParam], Wrapped(Single, ret), NoAnn, false, false, false,
            [Route(AnyLimit, AnyOrder, target, args)], true)
  }

  function InsertObjRx(p: DaoParams): FunSpec {
    RxWrapper("add", [ObjParam(p, false)], LongType, "addBlocking", [Pass("obj")])
  }

  function InsertObjsRx(p: DaoParams): FunSpec {
    RxWrapper("add", [ObjParam(p, true)], ListOf(LongType), "addBlocking", [Spread("obj")])
  }

  function UpdateObjRx(p: DaoParams): FunSpec {
    RxWrapper("update", [ObjParam(p, false)], IntType, "updateBlocking", [Pass("obj")])
  }

  function DeleteObjRx(p: DaoParams): FunSpec {
    RxWrapper("delete", [ObjParam(p, false)], IntType, "deleteBlocking", [Pass("obj")])
  }

  function DeleteObjsRx(p: DaoParams): FunSpec {
    RxWrapper("delete", [ObjParam(p, true)], IntType, "deleteBlocking", [Spread("obj")])
  }

  function DeleteAllRx(): FunSpec {
    RxWrapper("deleteAll", [], IntType, "deleteAllBlocking", [])
  }

  /** The blocking list, in the order the DAO declares it. */
  function BlockingQueries(p: DaoParams): seq<FunSpec> {
    [InsertObjBlocking(p), InsertObjsBlocking(p), UpdateObjBlocking(p),
     DeleteObjBlocking(p), DeleteObjsBlocking(p), DeleteAllBlocking(p)]
  }

  /** The Rx list, in the same order. */
  function RxQueries(p: DaoParams): seq<FunSpec> {
    [InsertObjRx(p), InsertObjsRx(p), UpdateObjRx(p), DeleteObjRx(p), DeleteObjsRx(p), DeleteAllRx()]
  }

  // ---------------------------------------------------------------------------
  // Properties
  // ---------------------------------------------------------------------------

  /** The blocking methods are `addBlocking(obj)`, `addBlocking(vararg obj)`,
      `updateBlocking(obj)`, `deleteBlocking(obj)`, `deleteBlocking(vararg obj)`
      and `deleteAllBlocking()`, all public abstract Room methods with the return
      types Room gives them: `Long` for one insert, `List<Long>` for a vararg
      insert, `Int` (rows affected) for update and delete. Inserts carry the
      insert policy, update the update policy, deletes no policy, and
      `deleteAllBlocking()` is the parameterless `DELETE FROM <table>` query. */
  lemma BlockingShape(p: DaoParams)
    ensures |BlockingQueries(p)| == 6
    ensures [BlockingQueries(p)[0].name, BlockingQueries(p)[1].name, BlockingQueries(p)[2].name,
             BlockingQueries(p)[3].name, BlockingQueries(p)[4].name]
         == ["addBlocking", "addBlocking", "updateBlocking", "deleteBlocking", "deleteBlocking"]
    ensures forall i | 0 <= i < 5 :: BlockingQueries(p)[i].params == [Param("obj", p.entityType, i == 1 || i == 4, None)]
    ensures forall f | f in BlockingQueries(p) :: f.isAbstract && !f.isProtected && f.routes == [] && !f.transaction
    ensures [BlockingQueries(p)[0].returnType, BlockingQueries(p)[1].returnType] == [LongType, ListOf(LongType)]
    ensures forall i | 2 <= i < 6 :: BlockingQueries(p)[i].returnType == IntType
    ensures BlockingQueries(p)[0].annotation == InsertAnn(ConflictLiteral(p.onInsertConflictStrategy))
    ensures BlockingQueries(p)[1].annotation == InsertAnn(ConflictLiteral(p.onInsertConflictStrategy))
    ensures BlockingQueries(p)[2].annotation == UpdateAnn(ConflictLiteral(p.onUpdateConflictStrategy))
    ensures BlockingQueries(p)[3].annotation == DeleteAnn && BlockingQueries(p)[4].annotation == DeleteAnn
    ensures BlockingQueries(p)[5] == AbstractNative("deleteAllBlocking", [], IntType, QueryAnn("DELETE FROM " + p.tableName))
  {
  }

  /** `rx` is `blocking` made reactive: the name without `Blocking`, the same
      parameters plus `autoThread`, the return type wrapped in `Single`, and
      one unguarded branch that calls `blocking` with the same arity. */
  predicate WrapsBlocking(rx: FunSpec, blocking: FunSpec) {
    && blocking.name == rx.name + "Blocking"
    && rx.params == blocking.params + [AutoThreadParam]
    && rx.returnType == Wrapped(Single, blocking.returnType)
    && !rx.isAbstract && rx.autoThreadWrap && rx.annotation == NoAnn
    && |rx.routes| == 1 && rx.routes[0].limitGuard == AnyLimit && rx.routes[0].orderGuard == AnyOrder
    && Calls(rx.routes[0], blocking)
  }

  lemma WrapperPair(name: string, params: seq<Param>, ret: TypeRef, ann: Annotation, args: seq<Arg>)
    requires ArgsFit(args, params)
    ensures WrapsBlocking(RxWrapper(name, params, ret, name + "Blocking", args),
                          AbstractNative(name + "Blocking", params, ret, ann))
  {
  }

  /** Each Rx wrapper is its blocking counterpart made reactive. */
  lemma RxWrapsBlocking(p: DaoParams, i: nat)
    requires i < 6
    ensures WrapsBlocking(RxQueries(p)[i], BlockingQueries(p)[i])
  {
    var one, many := ObjParam(p, false), ObjParam(p, true);
    var insert, update := InsertAnn(ConflictLiteral(p.onInsertConflictStrategy)), UpdateAnn(ConflictLiteral(p.onUpdateConflictStrategy));
    assert ArgsFit([Pass("obj")], [one]) && ArgsFit([Spread("obj")], [many]);
    if i == 0 {
      assert "add" + "Blocking" == "addBlocking";
      WrapperPair("add", [one], LongType, insert, [Pass("obj")]);
    } else if i == 1 {
      assert "add" + "Blocking" == "addBlocking";
      WrapperPair("add", [many], ListOf(LongType), insert, [Spread("obj")]);
    } else if i == 2 {
      assert "update" + "Blocking" == "updateBlocking";
      WrapperPair("update", [one], IntType, update, [Pass("obj")]);
    } else if i == 3 {
      assert "delete" + "Blocking" == "deleteBlocking";
      WrapperPair("delete", [one], IntType, DeleteAnn, [Pass("obj")]);
    } else if i == 4 {
      assert "delete" + "Blocking" == "deleteBlocking";
      WrapperPair("delete", [many], IntType, DeleteAnn, [Spread("obj")]);
    } else {
      assert "deleteAll" + "Blocking" == "deleteAllBlocking";
      WrapperPair("deleteAll", [], IntType, QueryAnn("DELETE FROM " + p.tableName), []);
    }
  }

  /** The Rx wrappers' names are short and do not start with `g`. */
  lemma RxNames(p: DaoParams)
    ensures forall k | 0 <= k < 6 :: 3 <= |RxQueries(p)[k].name| <= 9 && RxQueries(p)[k].name[0] != 'g'
  {
  }

  /** The blocking names are all longer than ten characters. */
  lemma BlockingNames(p: DaoParams)
    ensures forall k | 0 <= k < 6 :: |BlockingQueries(p)[k].name| > 10
  {
  }

  /** `addBlocking`, `deleteBlocking`, `add` and `delete` are each declared
      twice, so names alone repeat; the (name, vararg-ness) signatures do not. */
  lemma NativeOverloads(p: DaoParams)
    ensures BlockingQueries(p)[0].name == BlockingQueries(p)[1].name
    ensures RxQueries(p)[3].name == RxQueries(p)[4].name
    ensures forall i, j | 0 <= i < j < 6 :: Signature(BlockingQueries(p)[i]) != Signature(BlockingQueries(p)[j])
    ensures forall i, j | 0 <= i < j < 6 :: Signature(RxQueries(p)[i]) != Signature(RxQueries(p)[j])
    ensures forall i, j | 0 <= i < 6 && 0 <= j < 6 :: Signature(BlockingQueries(p)[i]) != Signature(RxQueries(p)[j])
  {
    BlockingSignatures(p);
    RxSignatures(p);
    BlockingNames(p);
    RxNames(p);
  }

  lemma BlockingSignatures(p: DaoParams)
    ensures forall i, j | 0 <= i < j < 6 :: Signature(BlockingQueries(p)[i]) != Signature(BlockingQueries(p)[j])
  {
    var b := BlockingQueries(p);
    assert Signature(b[0]).1 == [false] && Signature(b[1]).1 == [true];
    assert Signature(b[3]).1 == [false] && Signature(b[4]).1 == [true];
  }

  lemma RxSignatures(p: DaoParams)
    ensures forall i, j | 0 <= i < j < 6 :: Signature(RxQueries(p)[i]) != Signature(RxQueries(p)[j])
  {
    var r := RxQueries(p);
    assert Signature(r[0]).1 == [false, false] && Signature(r[1]).1 == [true, false];
    assert Signature(r[3]).1 == [false, false] && Signature(r[4]).1 == [true, false];
  }
}
