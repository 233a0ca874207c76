/** What one generated DAO method is, as a value: the structure the generator
    hands to KotlinPoet, without its rendering to text. */
module Descriptors {
  import opened Types

  /** One parameter of a generated method. */
  datatype Param = Param(name: string, typ: TypeRef, isVararg: bool, defaultValue: Option<string>)

  /** The annotation that tells Room what an abstract method does. */
  datatype Annotation =
    | QueryAnn(text: string)
    | InsertAnn(onConflict: string)
    | UpdateAnn(onConflict: string)
    | DeleteAnn
    | NoAnn

  /** One argument of a forwarding call: `x` or the spread `*x`. */
  datatype Arg = Pass(name: string) | Spread(name: string)

  /** The condition a dispatcher branch tests before it forwards. */
  datatype LimitGuard = AnyLimit | LimitZero | LimitNonZero
  datatype OrderGuard = AnyOrder | OrderIs(order: Order)

  /** One branch of a dispatcher body: when its guards hold, call `target(args)`. */
  datatype Route = Route(limitGuard: LimitGuard, orderGuard: OrderGuard, target: string, args: seq<Arg>)

  /** A generated method. Abstract methods carry an annotation and no routes;
      concrete ones (dispatchers and Rx wrappers) carry routes. `autoThreadWrap`
      says whether the body is wrapped in the `when (autoThread)` scheduling. */
  datatype FunSpec = FunSpec(
    name: string,
    params: seq<Param>,
    returnType: TypeRef,
    annotation: Annotation,
    transaction: bool,
    isAbstract: bool,
    isProtected: bool,
    routes: seq<Route>,
    autoThreadWrap: bool)

  /** `autoThread: Boolean = true`, the trailing parameter of every scheduled method. */
  const AutoThreadParam := Param("autoThread", BooleanType, false, Some("true"))

  predicate ArgFits(a: Arg, p: Param) {
    match a
    case Pass(n) => !p.isVararg && p.name == n
    case Spread(n) => p.isVararg && p.name == n
  }

  /** A call with `args` matches a parameter list positionally. */
  predicate ArgsFit(args: seq<Arg>, params: seq<Param>) {
    |args| == |params| && forall i | 0 <= i < |args| :: ArgFits(args[i], params[i])
  }

  /** Route `r` names method `g` and its arguments fill `g`'s parameters. */
  predicate Calls(r: Route, g: FunSpec) {
    r.target == g.name && ArgsFit(r.args, g.params)
  }

  predicate GuardHolds(r: Route, limit: int, order: Order) {
    (match r.limitGuard
     case AnyLimit => true
     case LimitZero => limit == 0
     case LimitNonZero => limit != 0)
    &&
    (match r.orderGuard
     case AnyOrder => true
     case OrderIs(o) => o == order)
  }

  /** The branch a dispatcher takes for runtime arguments `limit` and `order`:
      the first whose guards hold; none when no guard holds. */
  function Resolve(routes: seq<Route>, limit: int, order: Order): (r: Option<Route>)
    ensures r.Some? ==> r.value in routes && GuardHolds(r.value, limit, order)
    ensures r.Some? ==> exists k | 0 <= k < |routes| ::
                          routes[k] == r.value && forall j | 0 <= j < k :: !GuardHolds(routes[j], limit, order)
    ensures r.None? <==> forall i | 0 <= i < |routes| :: !GuardHolds(routes[i], limit, order)
  {
    if routes == [] then None
    else if GuardHolds(routes[0], limit, order) then Some(routes[0])
    else Resolve(routes[1..], limit, order)
  }

  /** Every branch of `f` calls some abstract method of `block`. */
  predicate ForwardsInto(f: FunSpec, block: seq<FunSpec>) {
    forall r | r in f.routes :: exists g | g in block :: g.isAbstract && Calls(r, g)
  }

  /** The overload signature: a name plus which parameters are varargs, the
      part of a parameter list that tells `f(obj)` from `f(vararg obj)`. */
  function Signature(f: FunSpec): (string, seq<bool>) {
    (f.name, seq(|f.params|, i requires 0 <= i < |f.params| => f.params[i].isVararg))
  }
}
