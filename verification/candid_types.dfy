/**
 * The library's own type tree, `candid::types`, as far as the mirror reads
 * it. A `Type` is a shared pointer to a `TypeInner`; references to named
 * definitions stay `Var` leaves and are resolved by the environment, never
 * by the tree itself.
 */
module CandidTypes {
  import SortedMap

  /** Rust's `u32`. */
  type U32 = n: int | 0 <= n < 0x1_0000_0000

  /** A field label: a numeric hash, a name, or a tuple position. */
  datatype Label = Id(hash: U32) | Named(name: string) | Unnamed(position: U32)

  datatype Field = Field(id: Label, ty: Type)

  datatype FuncMode = Oneway | Query | CompositeQuery

  datatype Function = Function(modes: seq<FuncMode>, args: seq<Type>, rets: seq<Type>)

  /**
   * The identity of a recursive type: a numeric id that tells types apart,
   * and the display name the mirror keeps.
   */
  datatype TypeId = TypeId(id: nat, name: string)

  /** `Type(Rc<TypeInner>)`; sharing is invisible to a value model. */
  datatype Type = Type(inner: TypeInner)

  datatype TypeInner =
    | Null | Bool | Nat | Int | Nat8 | Nat16 | Nat32 | Nat64 | Int8
    | Int16 | Int32 | Int64 | Float32 | Float64 | Text | Reserved | Empty
    | Knot(knot: TypeId)          // a back-reference to a recursive type, by identity
    | Var(ref: string)           // a reference to a named definition of the environment
    | Unknown
    | Opt(opt: Type)
    | Vec(elem: Type)
    | Record(fields: seq<Field>)
    | Variant(fields: seq<Field>)
    | Func(func: Function)
    | Service(methods: seq<(string, Type)>)
    | Class(initArgs: seq<Type>, body: Type)
    | Principal | Future

  /** The name of the constructor, as written in the library's enum. */
  function ConstructorName(t: TypeInner): string
  {
    match t
    case Null => "Null"
    case Bool => "Bool"
    case Nat => "Nat"
    case Int => "Int"
    case Nat8 => "Nat8"
    case Nat16 => "Nat16"
    case Nat32 => "Nat32"
    case Nat64 => "Nat64"
    case Int8 => "Int8"
    case Int16 => "Int16"
    case Int32 => "Int32"
    case Int64 => "Int64"
    case Float32 => "Float32"
    case Float64 => "Float64"
    case Text => "Text"
    case Reserved => "Reserved"
    case Empty => "Empty"
    case Knot(_) => "Knot"
    case Var(_) => "Var"
    case Unknown => "Unknown"
    case Opt(_) => "Opt"
    case Vec(_) => "Vec"
    case Record(_) => "Record"
    case Variant(_) => "Variant"
    case Func(_) => "Func"
    case Service(_) => "Service"
    case Class(_, _) => "Class"
    case Principal => "Principal"
    case Future => "Future"
  }

  /**
   * The environment of a loaded program, `TypeEnv(BTreeMap<String, Type>)`:
   * the named type definitions in key order.
   */
  type TypeEnv = SortedMap.Map<Type>
}
