/** What a public dispatcher does at run time: for every `limit` and `order`
    it takes exactly one branch, that branch calls exactly one method of its
    own group (overloads are told apart by their arguments), and the method
    called runs the query the caller asked for. */
module Dispatch {
  import opened Types
  import opened Naming
  import opened Descriptors
  import opened AutoDaoParams
  import opened Functions
  import opened QueryText

  /** Among the methods of `group`, route `r` calls `g` and nothing else. */
  predicate UniqueTarget(r: Route, group: seq<FunSpec>, g: FunSpec) {
    g in group && forall h | h in group :: Calls(r, h) <==> h == g
  }

  /** The query a dispatcher call with (`limit`, `order`) should run. */
  function Requested(p: DaoParams, filter: Option<Attr>, orderBy: Option<Attr>, limit: int, order: Order): Select {
    Select(p.tableName, filter,
           match orderBy case None => None case Some(b) => Some(Ordering(b, order)),
           limit != 0)
  }

  /** The branch index a two-way dispatcher takes. */
  function LimitSlot(limit: int): nat {
    if limit == 0 then 0 else 1
  }

  /** The branch index a four-way (limit x order) dispatcher takes. */
  function OrderedSlot(limit: int, order: Order): nat {
    (if limit == 0 then 0 else 2) + (if order == ASC then 0 else 1)
  }

  /** A three-method group: the abstract internal method over `ps`, its limit overload
      over `ps + [limit]` with the same name, and a dispatcher of another name whose two
      branches forward `args` (which fill `ps`), and `args + [limit]`. */
  predicate PlainGroup(group: seq<FunSpec>, ps: seq<Param>, args: seq<Arg>) {
    && |group| == 3
    && group[0].isAbstract && group[1].isAbstract
    && group[1].name == group[0].name
    && group[0].params == ps && group[1].params == ps + [LimitParam]
    && group[2].name != group[0].name
    && ArgsFit(args, ps)
    && group[2].routes == [Route(LimitZero, AnyOrder, group[0].name, args),
                           Route(LimitNonZero, AnyOrder, group[0].name, args + [Pass("limit")])]
  }

  /** A five-method group: two abstract internal methods of different names
      (ascending first) over `ps`, their limit overloads, and the four-branch
      dispatcher. */
  predicate OrderedGroup(group: seq<FunSpec>, ps: seq<Param>, args: seq<Arg>) {
    && |group| == 5
    && group[0].isAbstract && group[1].isAbstract && group[2].isAbstract && group[3].isAbstract
    && group[0].name != group[1].name
    && group[2].name == group[0].name && group[3].name == group[1].name
    && group[0].params == ps && group[1].params == ps
    && group[2].params == ps + [LimitParam] && group[3].params == ps + [LimitParam]
    && |group[4].params| > |ps| + 1
    && ArgsFit(args, ps)
    && group[4].routes == [Route(LimitZero, OrderIs(ASC), group[0].name, args),
                           Route(LimitZero, OrderIs(DESC), group[1].name, args),
                           Route(LimitNonZero, OrderIs(ASC), group[0].name, args + [Pass("limit")]),
                           Route(LimitNonZero, OrderIs(DESC), group[1].name, args + [Pass("limit")])]
  }

  lemma ArgsFitAppend(args: seq<Arg>, ps: seq<Param>)
    requires ArgsFit(args, ps)
    ensures ArgsFit(args + [Pass("limit")], ps + [LimitParam])
  {
    var a2, p2 := args + [Pass("limit")], ps + [LimitParam];
    forall i | 0 <= i < |a2| ensures ArgFits(a2[i], p2[i]) {
      if i < |args| {
        assert a2[i] == args[i] && p2[i] == ps[i];
      }
    }
  }

  lemma PlainGroupDispatch(group: seq<FunSpec>, ps: seq<Param>, args: seq<Arg>, limit: int, order: Order)
    requires PlainGroup(group, ps, args)
    ensures Resolve(group[2].routes, limit, order) == Some(group[2].routes[LimitSlot(limit)])
    ensures UniqueTarget(group[2].routes[LimitSlot(limit)], group, group[LimitSlot(limit)])
  {
    ArgsFitAppend(args, ps);
    var k := LimitSlot(limit);
    var r := group[2].routes[k];
    forall h | h in group ensures Calls(r, h) <==> h == group[k] {
      if Calls(r, h) {
        assert |r.args| == |h.params|;
      }
    }
  }

  lemma OrderedGroupDispatch(group: seq<FunSpec>, ps: seq<Param>, args: seq<Arg>, limit: int, order: Order)
    requires OrderedGroup(group, ps, args)
    ensures Resolve(group[4].routes, limit, order) == Some(group[4].routes[OrderedSlot(limit, order)])
    ensures UniqueTarget(group[4].routes[OrderedSlot(limit, order)], group, group[OrderedSlot(limit, order)])
  {
    ArgsFitAppend(args, ps);
    var k := OrderedSlot(limit, order);
    var r := group[4].routes[k];
    forall h | h in group ensures Calls(r, h) <==> h == group[k] {
      if Calls(r, h) {
        assert |r.args| == |h.params| && r.target == h.name;
      }
    }
  }

  /** Every branch of a group's dispatcher calls an abstract method of its group. */
  lemma PlainGroupForwards(group: seq<FunSpec>, ps: seq<Param>, args: seq<Arg>)
    requires PlainGroup(group, ps, args)
    ensures forall f | f in group && !f.isAbstract :: ForwardsInto(f, group)
  {
    forall f | f in group && !f.isAbstract ensures f == group[2] {
      var k :| 0 <= k < 3 && f == group[k];
    }
    forall r | r in group[2].routes ensures exists g | g in group :: g.isAbstract && Calls(r, g) {
      var k :| 0 <= k < 2 && r == group[2].routes[k];
      PlainGroupDispatch(group, ps, args, k, ASC);
    }
  }

  lemma OrderedGroupForwards(group: seq<FunSpec>, ps: seq<Param>, args: seq<Arg>)
    requires OrderedGroup(group, ps, args)
    ensures forall f | f in group && !f.isAbstract :: ForwardsInto(f, group)
  {
    forall f | f in group && !f.isAbstract ensures f == group[4] {
      var k :| 0 <= k < 5 && f == group[k];
    }
    forall r | r in group[4].routes ensures exists g | g in group :: g.isAbstract && Calls(r, g) {
      var k :| 0 <= k < 4 && r == group[4].routes[k];
      OrderedGroupDispatch(group, ps, args, if k < 2 then 0 else 1, if k % 2 == 0 then ASC else DESC);
    }
  }

  lemma GetAllGroupShape(p: DaoParams, s: Shape)
    ensures PlainGroup(GetAllGroup(p, s), [], [])
  {
    var group := GetAllGroup(p, s);
    assert group[0].name == "getAllAs" + ShapeName(s) + "_";
    assert |group[2].name| != |group[0].name|;
    assert ArgsFit([], []);
    assert [] + [Pass("limit")] == [Pass("limit")];
  }

  lemma GetAllOrderByGroupShape(p: DaoParams, s: Shape, a: Attr)
    ensures OrderedGroup(GetAllOrderByGroup(p, s, a), [], [])
  {
    OrderSuffixValues();
    var group, priv := GetAllOrderByGroup(p, s, a), GetAllOrderByName(a, s);
    assert group[0].name == priv + "Asc_" && group[1].name == priv + "Desc_";
    assert |priv + "Asc_"| != |priv + "Desc_"|;
    assert [] + [Pass("limit")] == [Pass("limit")];
  }

  lemma GetByGroupShape(p: DaoParams, s: Shape, a: Attr)
    ensures PlainGroup(GetByGroup(p, s, a), [ValuesParam(a)], [Spread(a.name + "s")])
  {
    var group, ps, args := GetByGroup(p, s, a), [ValuesParam(a)], [Spread(a.name + "s")];
    assert args + [Pass("limit")] == [Spread(a.name + "s"), Pass("limit")];
    assert |group[2].name| != |group[0].name|;
    assert ArgsFit(args, ps);
  }

  lemma GetByOrderByGroupShape(p: DaoParams, s: Shape, a: Attr, b: Attr)
    ensures OrderedGroup(GetByOrderByGroup(p, s, a, b), [ValuesParam(a)], [Spread(a.name + "s")])
  {
    OrderSuffixValues();
    var group, priv := GetByOrderByGroup(p, s, a, b), GetByAttrOrderByName(a, b) + "As" + ShapeName(s);
    var ps, args := [ValuesParam(a)], [Spread(a.name + "s")];
    assert group[0].name == priv + "Asc_" && group[1].name == priv + "Desc_";
    assert |priv + "Asc_"| != |priv + "Desc_"|;
    assert args + [Pass("limit")] == [Spread(a.name + "s"), Pass("limit")];
    assert ArgsFit(args, ps);
  }

  /** `getAll(limit)`: `limit == 0` calls `getAllAs<S>_()`, any other value
      `getAllAs<S>_(limit)`, which is `SELECT * FROM <table>` with or without
      `LIMIT :limit`. */
  lemma GetAllDispatch(p: DaoParams, s: Shape, limit: int, order: Order)
    ensures var r := Resolve(GetAllDispatcher(p, s).routes, limit, order);
      var g := if limit == 0 then GetAllInternal(p, s) else GetAllLimitInternal(p, s);
      && r.Some? && UniqueTarget(r.value, GetAllGroup(p, s), g)
      && RunsQuery(p, g, Requested(p, None, None, limit, order))
  {
    GetAllGroupShape(p, s);
    PlainGroupDispatch(GetAllGroup(p, s), [], [], limit, order);
    GetAllQueries(p, s);
  }

  /** `getAllOrderedBy<A>(limit, order)` calls the internal method for that
      order with or without `limit`, which sorts by `A`'s column in that
      order. */
  lemma GetAllOrderedByDispatch(p: DaoParams, s: Shape, a: Attr, limit: int, order: Order)
    ensures var r := Resolve(GetAllOrderedByDispatcher(p, s, a).routes, limit, order);
      var g := if limit == 0 then GetAllOrderByInternal(p, s, a, order) else GetAllOrderByLimitInternal(p, s, a, order);
      && r.Some? && UniqueTarget(r.value, GetAllOrderByGroup(p, s, a), g)
      && RunsQuery(p, g, Requested(p, None, Some(a), limit, order))
  {
    GetAllOrderByGroupShape(p, s, a);
    OrderedGroupDispatch(GetAllOrderByGroup(p, s, a), [], [], limit, order);
    if limit == 0 {
      GetAllOrderByQueries(p, s, a, order);
    } else {
      GetAllOrderByLimitQueries(p, s, a, order);
    }
  }

  /** `getBy<A>(vararg values, limit)` forwards the spread values, and the
      limit when it is not 0, to the internal `IN` query. */
  lemma GetByDispatch(p: DaoParams, s: Shape, a: Attr, limit: int, order: Order)
    ensures var r := Resolve(GetByDispatcher(p, s, a).routes, limit, order);
      var g := if limit == 0 then GetByInternal(p, s, a) else GetByLimitInternal(p, s, a);
      && r.Some? && UniqueTarget(r.value, GetByGroup(p, s, a), g)
      && RunsQuery(p, g, Requested(p, Some(a), None, limit, order))
  {
    GetByGroupShape(p, s, a);
    PlainGroupDispatch(GetByGroup(p, s, a), [ValuesParam(a)], [Spread(a.name + "s")], limit, order);
    if limit == 0 {
      GetByQueries(p, s, a);
    } else {
      GetByLimitQueries(p, s, a);
    }
  }

  /** `getBy<A>OrderedBy<B>(vararg values, limit, order)` filters on `A`
      and sorts by `B` in the requested order. */
  lemma GetByOrderedByDispatch(p: DaoParams, s: Shape, a: Attr, b: Attr, limit: int, order: Order)
    ensures var r := Resolve(GetByOrderedByDispatcher(p, s, a, b).routes, limit, order);
      var g := if limit == 0 then GetByOrderByInternal(p, s, a, b, order) else GetByOrderByLimitInternal(p, s, a, b, order);
      && r.Some? && UniqueTarget(r.value, GetByOrderByGroup(p, s, a, b), g)
      && RunsQuery(p, g, Requested(p, Some(a), Some(b), limit, order))
  {
    GetByOrderByGroupShape(p, s, a, b);
    OrderedGroupDispatch(GetByOrderByGroup(p, s, a, b), [ValuesParam(a)], [Spread(a.name + "s")], limit, order);
    if limit == 0 {
      GetByOrderByQueries(p, s, a, b, order);
    } else {
      GetByOrderByLimitQueries(p, s, a, b, order);
    }
  }
}
