/** The SQL the internal methods carry, described structurally: every internal
    method's text is `SELECT * FROM <table>[ WHERE <col> IN (:<name>s)]
    [ ORDER BY <col> ASC|DESC][ LIMIT :limit]`, and its parameters are exactly
    the query's bind variables, in order. */
module QueryText {
  import opened Types
  import opened Naming
  import opened Descriptors
  import opened AutoDaoParams
  import opened Functions

  datatype Ordering = Ordering(attr: Attr, order: Order)

  /** A `SELECT *` over one table with an optional `IN` filter, ordering and limit. */
  datatype Select = Select(table: string, filter: Option<Attr>, orderBy: Option<Ordering>, limited: bool)

  function WhereClause(filter: Option<Attr>): string {
    match filter
    case None => ""
    case Some(a) => " WHERE " + a.collumnName + " IN (:" + a.name + "s)"
  }

  function OrderClause(orderBy: Option<Ordering>): string {
    match orderBy
    case None => ""
    case Some(ob) => " ORDER BY " + ob.attr.collumnName + " " + OrderLiteral(ob.order)
  }

  function SelectText(q: Select): string {
    "SELECT * FROM " + q.table + WhereClause(q.filter) + OrderClause(q.orderBy)
      + (if q.limited then " LIMIT :limit" else "")
  }

  /** The named bind variables of the query, in the order they appear. */
  function Binds(q: Select): seq<string> {
    (match q.filter case None => [] case Some(a) => [a.name + "s"])
    + (if q.limited then ["limit"] else [])
  }

  function ParamNames(ps: seq<Param>): (r: seq<string>)
    ensures |r| == |ps| && forall i | 0 <= i < |ps| :: r[i] == ps[i].name
  {
    if ps == [] then [] else [ps[0].name] + ParamNames(ps[1..])
  }

  /** `f` is a protected abstract `@Query` method over `p`'s table for the
      query `q`, with `@Transaction` exactly when the entity has relations,
      and with one parameter per bind variable. */
  predicate RunsQuery(p: DaoParams, f: FunSpec, q: Select) {
    && f.isAbstract && f.isProtected && f.routes == [] && !f.autoThreadWrap
    && f.transaction == p.containsRelationAnnotation
    && q.table == p.tableName
    && f.annotation == QueryAnn(SelectText(q))
    && ParamNames(f.params) == Binds(q)
  }

  lemma AppendAssoc4(x: string, a: string, b: string, c: string, d: string)
    ensures x + (a + b + c + d) == x + a + b + c + d
  {
  }

  lemma AppendAssoc5(x: string, a: string, b: string, c: string, d: string, e: string)
    ensures x + (a + b + c + d + e) == x + a + b + c + d + e
  {
  }

  lemma GetAllQueries(p: DaoParams, s: Shape)
    ensures RunsQuery(p, GetAllInternal(p, s), Select(p.tableName, None, None, false))
    ensures RunsQuery(p, GetAllLimitInternal(p, s), Select(p.tableName, None, None, true))
  {
  }

  lemma GetAllOrderByQueries(p: DaoParams, s: Shape, a: Attr, o: Order)
    ensures RunsQuery(p, GetAllOrderByInternal(p, s, a, o), Select(p.tableName, None, Some(Ordering(a, o)), false))
  {
    var f, q := GetAllOrderByInternal(p, s, a, o), Select(p.tableName, None, Some(Ordering(a, o)), false);
    var head, order := "SELECT * FROM " + p.tableName, " ORDER BY " + a.collumnName + " " + OrderLiteral(o);
    assert OrderClause(Some(Ordering(a, o))) == order;
    assert SelectText(q) == head + order by {
      assert head + WhereClause(None) == head;
      assert head + order + "" == head + order;
    }
    AppendAssoc4(head, " ORDER BY ", a.collumnName, " ", OrderLiteral(o));
    assert f.annotation == QueryAnn(SelectText(q));
    assert ParamNames(f.params) == Binds(q);
  }

  lemma GetAllOrderByLimitQueries(p: DaoParams, s: Shape, a: Attr, o: Order)
    ensures RunsQuery(p, GetAllOrderByLimitInternal(p, s, a, o), Select(p.tableName, None, Some(Ordering(a, o)), true))
  {
    var g, ql := GetAllOrderByLimitInternal(p, s, a, o), Select(p.tableName, None, Some(Ordering(a, o)), true);
    var head, order := "SELECT * FROM " + p.tableName, " ORDER BY " + a.collumnName + " " + OrderLiteral(o);
    assert OrderClause(Some(Ordering(a, o))) == order;
    assert SelectText(ql) == head + order + " LIMIT :limit" by {
      assert head + WhereClause(None) == head;
    }
    AppendAssoc4(head, " ORDER BY ", a.collumnName, " ", OrderLiteral(o));
    assert g.annotation == QueryAnn(SelectText(ql));
    assert ParamNames(g.params) == Binds(ql);
  }

  lemma GetByQueries(p: DaoParams, s: Shape, a: Attr)
    ensures RunsQuery(p, GetByInternal(p, s, a), Select(p.tableName, Some(a), None, false))
    ensures GetByInternal(p, s, a).params == [Param(a.name + "s", a.typ, true, None)]
  {
    var f, q := GetByInternal(p, s, a), Select(p.tableName, Some(a), None, false);
    var head, where := "SELECT * FROM " + p.tableName, " WHERE " + a.collumnName + " IN (:" + a.name + "s)";
    assert WhereClause(Some(a)) == where;
    assert SelectText(q) == head + where by {
      assert head + where + OrderClause(None) == head + where;
      assert head + where + "" == head + where;
    }
    AppendAssoc5(head, " WHERE ", a.collumnName, " IN (:", a.name, "s)");
    assert f.annotation == QueryAnn(SelectText(q));
    assert ParamNames(f.params) == Binds(q);
  }

  lemma GetByLimitQueries(p: DaoParams, s: Shape, a: Attr)
    ensures RunsQuery(p, GetByLimitInternal(p, s, a), Select(p.tableName, Some(a), None, true))
    ensures GetByLimitInternal(p, s, a).params == [Param(a.name + "s", a.typ, true, None), LimitParam]
  {
    var g, ql := GetByLimitInternal(p, s, a), Select(p.tableName, Some(a), None, true);
    var head, where := "SELECT * FROM " + p.tableName, " WHERE " + a.collumnName + " IN (:" + a.name + "s)";
    assert WhereClause(Some(a)) == where;
    assert SelectText(ql) == head + where + " LIMIT :limit" by {
      assert head + where + OrderClause(None) == head + where;
    }
    AppendAssoc5(head, " WHERE ", a.collumnName, " IN (:", a.name, "s)");
    assert g.annotation == QueryAnn(SelectText(ql));
    assert ParamNames(g.params) == Binds(ql);
  }

  /** The filter attribute names the `WHERE` column and the bind variable,
      the order attribute names the `ORDER BY` column. */
  lemma GetByOrderByQueries(p: DaoParams, s: Shape, a: Attr, b: Attr, o: Order)
    ensures RunsQuery(p, GetByOrderByInternal(p, s, a, b, o), Select(p.tableName, Some(a), Some(Ordering(b, o)), false))
  {
    var f, q := GetByOrderByInternal(p, s, a, b, o), Select(p.tableName, Some(a), Some(Ordering(b, o)), false);
    var head, where := "SELECT * FROM " + p.tableName, " WHERE " + a.collumnName + " IN (:" + a.name + "s)";
    var order := " ORDER BY " + b.collumnName + " " + OrderLiteral(o);
    assert WhereClause(Some(a)) == where;
    assert OrderClause(Some(Ordering(b, o))) == order;
    assert SelectText(q) == head + where + order by {
      assert head + where + order + "" == head + where + order;
    }
    AppendAssoc5(head, " WHERE ", a.collumnName, " IN (:", a.name, "s)");
    AppendAssoc4(head + where, " ORDER BY ", b.collumnName, " ", OrderLiteral(o));
    assert f.annotation == QueryAnn(SelectText(q));
    assert ParamNames(f.params) == Binds(q);
  }

  lemma GetByOrderByLimitQueries(p: DaoParams, s: Shape, a: Attr, b: Attr, o: Order)
    ensures RunsQuery(p, GetByOrderByLimitInternal(p, s, a, b, o), Select(p.tableName, Some(a), Some(Ordering(b, o)), true))
  {
    var g, ql := GetByOrderByLimitInternal(p, s, a, b, o), Select(p.tableName, Some(a), Some(Ordering(b, o)), true);
    var head, where := "SELECT * FROM " + p.tableName, " WHERE " + a.collumnName + " IN (:" + a.name + "s)";
    var order := " ORDER BY " + b.collumnName + " " + OrderLiteral(o);
    assert WhereClause(Some(a)) == where;
    assert OrderClause(Some(Ordering(b, o))) == order;
    assert SelectText(ql) == head + where + order + " LIMIT :limit";
    AppendAssoc5(head, " WHERE ", a.collumnName, " IN (:", a.name, "s)");
    AppendAssoc4(head + where, " ORDER BY ", b.collumnName, " ", OrderLiteral(o));
    assert g.annotation == QueryAnn(SelectText(ql));
    assert ParamNames(g.params) == Binds(ql);
  }
}
