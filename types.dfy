/** Type tags, options and results shared by the generator model.

    The Kotlin code works with KotlinPoet `TypeName`s and `ClassName` constants
    (`singleType`, `maybeType`, `flowableType`, `liveDataType`, `listType`,
    `orderType`); here they are enumeration tags. */
module Types {

  datatype Option<T> = None | Some(value: T) {
    /** The elvis operator `x ?: default`. */
    function GetOr(default: T): T {
      match this
      case Some(v) => v
      case None => default
    }
  }

  /** The wrapper type of a generated query's result. `Other` stands for any
      class configured as the default return type that is none of the four
      recognised reactive wrappers. */
  datatype Shape = Single | Maybe | Flowable | LiveData | Other(className: string)

  predicate Supported(s: Shape) {
    !s.Other?
  }

  /** The simple class name, as it appears in generated method names (`AsSingle`). */
  function ShapeName(s: Shape): (r: string)
    ensures Supported(s) ==> r in ["Single", "Maybe", "Flowable", "LiveData"]
  {
    match s
    case Single => "Single"
    case Maybe => "Maybe"
    case Flowable => "Flowable"
    case LiveData => "LiveData"
    case Other(n) => n
  }

  /** The generated `Order` enumeration (ASC / DESC). */
  datatype Order = ASC | DESC

  /** A type as it appears in a generated signature. `Named` is an opaque,
      passed-through type (the entity class, an attribute's field type). */
  datatype TypeRef =
    | LongType
    | IntType
    | BooleanType
    | OrderType
    | ListOf(elem: TypeRef)
    | Wrapped(shape: Shape, arg: TypeRef)
    | Named(qualifiedName: string)

  /** Room's `OnConflictStrategy` integer constants. */
  const REPLACE: int := 1
  const ROLLBACK: int := 2
  const ABORT: int := 3
  const FAIL: int := 4
  const IGNORE: int := 5

  /** The two ways generation of one DAO aborts. */
  datatype Error =
    | UnsupportedReturnType(shape: Shape)
    | MissingTableName(entityClass: string)

  datatype Result<T> = Ok(value: T) | Err(error: Error)
}
