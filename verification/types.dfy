/**
 * The serializable mirror of the library's type tree (src/types.rs): a
 * closed copy of every constructor, and the `From` conversions that copy a
 * library value into it one constructor at a time. The conversion never
 * consults an environment: `Knot` and `Var` are copied as leaves, so it is
 * plain structural recursion over a finite tree.
 */
module Types {
  import C = CandidTypes

  datatype Label = Id(hash: C.U32) | Named(name: string) | Unnamed(position: C.U32)

  datatype Field = Field(id: Label, ty: TypeInner)

  datatype FuncMode = Oneway | Query | CompositeQuery

  datatype Function = Function(modes: seq<FuncMode>, args: seq<TypeInner>, rets: seq<TypeInner>)

  /** Only the name of a recursive type is kept. */
  datatype TypeId = TypeId(name: string)

  datatype TypeInner =
    | Null | Bool | Nat | Int | Nat8 | Nat16 | Nat32 | Nat64 | Int8
    | Int16 | Int32 | Int64 | Float32 | Float64 | Text | Reserved | Empty
    | Knot(knot: TypeId)          // a back-reference to a recursive type, by name
    | Var(ref: string)           // a reference to a named definition of the environment
    | Unknown
    | Opt(opt: TypeInner)
    | Vec(elem: TypeInner)
    | Record(fields: seq<Field>)
    | Variant(fields: seq<Field>)
    | Func(func: Function)
    | Service(methods: seq<(string, TypeInner)>)
    | Class(initArgs: seq<TypeInner>, body: TypeInner)
    | Principal | Future

  function ConstructorName(t: TypeInner): string
  {
    match t
    case Null => "Null"
    case Bool => "Bool"
    case Nat => "Nat"
    case Int => "Int"
    case Nat8 => "Nat8"
    case Nat16 => "Nat16"
    case Nat32 => "Nat32"
    case Nat64 => "Nat64"
    case Int8 => "Int8"
    case Int16 => "Int16"
    case Int32 => "Int32"
    case Int64 => "Int64"
    case Float32 => "Float32"
    case Float64 => "Float64"
    case Text => "Text"
    case Reserved => "Reserved"
    case Empty => "Empty"
    case Knot(_) => "Knot"
    case Var(_) => "Var"
    case Unknown => "Unknown"
    case Opt(_) => "Opt"
    case Vec(_) => "Vec"
    case Record(_) => "Record"
    case Variant(_) => "Variant"
    case Func(_) => "Func"
    case Service(_) => "Service"
    case Class(_, _) => "Class"
    case Principal => "Principal"
    case Future => "Future"
  }

  // ---------------------------------------------------------------------
  // The `From` conversions, library value to mirror.
  // ---------------------------------------------------------------------

  function LabelFrom(l: C.Label): Label
  {
    match l
    case Id(n) => Id(n)
    case Named(s) => Named(s)
    case Unnamed(n) => Unnamed(n)
  }

  function FieldFrom(f: C.Field): Field
    decreases f
  {
    Field(LabelFrom(f.id), InnerFrom(f.ty.inner))
  }

  function FuncModeFrom(m: C.FuncMode): FuncMode
  {
    match m
    case Oneway => Oneway
    case Query => Query
    case CompositeQuery => CompositeQuery
  }

  function FunctionFrom(f: C.Function): Function
    decreases f
  {
    Function(
      seq(|f.modes|, i requires 0 <= i < |f.modes| => FuncModeFrom(f.modes[i])),
      seq(|f.args|, i requires 0 <= i < |f.args| => InnerFrom(f.args[i].inner)),
      seq(|f.rets|, i requires 0 <= i < |f.rets| => InnerFrom(f.rets[i].inner)))
  }

  function TypeIdFrom(id: C.TypeId): TypeId
  {
    TypeId(id.name)
  }

  /** `From<&Type>`: look through the shared pointer. */
  function TypeFrom(t: C.Type): TypeInner
    decreases t
  {
    InnerFrom(t.inner)
  }

  function InnerFrom(t: C.TypeInner): TypeInner
    decreases t, 1
  {
    match t
    case Null => Null
    case Bool => Bool
    case Nat => Nat
    case Int => Int
    case Nat8 => Nat8
    case Nat16 => Nat16
    case Nat32 => Nat32
    case Nat64 => Nat64
    case Int8 => Int8
    case Int16 => Int16
    case Int32 => Int32
    case Int64 => Int64
    case Float32 => Float32
    case Float64 => Float64
    case Text => Text
    case Reserved => Reserved
    case Empty => Empty
    case Knot(id) => Knot(TypeIdFrom(id))
    case Var(name) => Var(name)
    case Unknown => Unknown
    case Opt(x) => Opt(InnerFrom(x.inner))
    case Vec(x) => Vec(InnerFrom(x.inner))
    case Record(_) => Record(FieldsFrom(t))
    case Variant(_) => Variant(FieldsFrom(t))
    case Func(f) => Func(FunctionFrom(f))
    case Service(_) => Service(MethodsFrom(t))
    case Class(_, body) => Class(InitArgsFrom(t), InnerFrom(body.inner))
    case Principal => Principal
    case Future => Future
  }

  /** The fields of a record or a variant, converted one by one in order. */
  function FieldsFrom(t: C.TypeInner): seq<Field>
    requires t.Record? || t.Variant?
    decreases t, 0
  {
    seq(|t.fields|, i requires 0 <= i < |t.fields| => FieldFrom(t.fields[i]))
  }

  /** The methods of a service: each name kept, each type converted, in order. */
  function MethodsFrom(t: C.TypeInner): seq<(string, TypeInner)>
    requires t.Service?
    decreases t, 0
  {
    seq(|t.methods|, i requires 0 <= i < |t.methods| => (t.methods[i].0, InnerFrom(t.methods[i].1.inner)))
  }

  /** The init arguments of a class, converted one by one in order. */
  function InitArgsFrom(t: C.TypeInner): seq<TypeInner>
    requires t.Class?
    decreases t, 0
  {
    seq(|t.initArgs|, i requires 0 <= i < |t.initArgs| => InnerFrom(t.initArgs[i].inner))
  }

  // ---------------------------------------------------------------------
  // The way back, mirror to library value. A mirror `TypeId` has lost the
  // numeric id; the way back uses id 0.
  // ---------------------------------------------------------------------

  function LabelToCandid(l: Label): C.Label
  {
    match l
    case Id(n) => C.Id(n)
    case Named(s) => C.Named(s)
    case Unnamed(n) => C.Unnamed(n)
  }

  function FieldToCandid(f: Field): C.Field
    decreases f
  {
    C.Field(LabelToCandid(f.id), C.Type(InnerToCandid(f.ty)))
  }

  function FuncModeToCandid(m: FuncMode): C.FuncMode
  {
    match m
    case Oneway => C.Oneway
    case Query => C.Query
    case CompositeQuery => C.CompositeQuery
  }

  function FunctionToCandid(f: Function): C.Function
    decreases f
  {
    C.Function(
      seq(|f.modes|, i requires 0 <= i < |f.modes| => FuncModeToCandid(f.modes[i])),
      seq(|f.args|, i requires 0 <= i < |f.args| => C.Type(InnerToCandid(f.args[i]))),
      seq(|f.rets|, i requires 0 <= i < |f.rets| => C.Type(InnerToCandid(f.rets[i]))))
  }

  function TypeIdToCandid(id: TypeId): C.TypeId
  {
    C.TypeId(0, id.name)
  }

  function InnerToCandid(t: TypeInner): C.TypeInner
    decreases t, 1
  {
    match t
    case Null => C.Null
    case Bool => C.Bool
    case Nat => C.Nat
    case Int => C.Int
    case Nat8 => C.Nat8
    case Nat16 => C.Nat16
    case Nat32 => C.Nat32
    case Nat64 => C.Nat64
    case Int8 => C.Int8
    case Int16 => C.Int16
    case Int32 => C.Int32
    case Int64 => C.Int64
    case Float32 => C.Float32
    case Float64 => C.Float64
    case Text => C.Text
    case Reserved => C.Reserved
    case Empty => C.Empty
    case Knot(id) => C.Knot(TypeIdToCandid(id))
    case Var(name) => C.Var(name)
    case Unknown => C.Unknown
    case Opt(x) => C.Opt(C.Type(InnerToCandid(x)))
    case Vec(x) => C.Vec(C.Type(InnerToCandid(x)))
    case Record(_) => C.Record(FieldsToCandid(t))
    case Variant(_) => C.Variant(FieldsToCandid(t))
    case Func(f) => C.Func(FunctionToCandid(f))
    case Service(_) => C.Service(MethodsToCandid(t))
    case Class(_, body) => C.Class(InitArgsToCandid(t), C.Type(InnerToCandid(body)))
    case Principal => C.Principal
    case Future => C.Future
  }

  function FieldsToCandid(t: TypeInner): seq<C.Field>
    requires t.Record? || t.Variant?
    decreases t, 0
  {
    seq(|t.fields|, i requires 0 <= i < |t.fields| => FieldToCandid(t.fields[i]))
  }

  function MethodsToCandid(t: TypeInner): seq<(string, C.Type)>
    requires t.Service?
    decreases t, 0
  {
    seq(|t.methods|, i requires 0 <= i < |t.methods| => (t.methods[i].0, C.Type(InnerToCandid(t.methods[i].1))))
  }

  function InitArgsToCandid(t: TypeInner): seq<C.Type>
    requires t.Class?
    decreases t, 0
  {
    seq(|t.initArgs|, i requires 0 <= i < |t.initArgs| => C.Type(InnerToCandid(t.initArgs[i])))
  }

  // ---------------------------------------------------------------------
  // A library value with the numeric id of every `Knot` set to 0: the
  // information the mirror keeps, stated on the library side.
  // ---------------------------------------------------------------------

  function FieldErased(f: C.Field): C.Field
    decreases f
  {
    C.Field(f.id, TypeErased(f.ty))
  }

  function FunctionErased(f: C.Function): C.Function
    decreases f
  {
    C.Function(
      f.modes,
      seq(|f.args|, i requires 0 <= i < |f.args| => TypeErased(f.args[i])),
      seq(|f.rets|, i requires 0 <= i < |f.rets| => TypeErased(f.rets[i])))
  }

  function TypeErased(t: C.Type): C.Type
    decreases t
  {
    C.Type(InnerErased(t.inner))
  }

  function InnerErased(t: C.TypeInner): C.TypeInner
    decreases t, 1
  {
    match t
    case Null => C.Null
    case Bool => C.Bool
    case Nat => C.Nat
    case Int => C.Int
    case Nat8 => C.Nat8
    case Nat16 => C.Nat16
    case Nat32 => C.Nat32
    case Nat64 => C.Nat64
    case Int8 => C.Int8
    case Int16 => C.Int16
    case Int32 => C.Int32
    case Int64 => C.Int64
    case Float32 => C.Float32
    case Float64 => C.Float64
    case Text => C.Text
    case Reserved => C.Reserved
    case Empty => C.Empty
    case Knot(id) => C.Knot(C.TypeId(0, id.name))
    case Var(name) => C.Var(name)
    case Unknown => C.Unknown
    case Opt(x) => C.Opt(TypeErased(x))
    case Vec(x) => C.Vec(TypeErased(x))
    case Record(_) => C.Record(FieldsErased(t))
    case Variant(_) => C.Variant(FieldsErased(t))
    case Func(f) => C.Func(FunctionErased(f))
    case Service(_) => C.Service(MethodsErased(t))
    case Class(_, body) => C.Class(InitArgsErased(t), TypeErased(body))
    case Principal => C.Principal
    case Future => C.Future
  }

  function FieldsErased(t: C.TypeInner): seq<C.Field>
    requires t.Record? || t.Variant?
    decreases t, 0
  {
    seq(|t.fields|, i requires 0 <= i < |t.fields| => FieldErased(t.fields[i]))
  }

  function MethodsErased(t: C.TypeInner): seq<(string, C.Type)>
    requires t.Service?
    decreases t, 0
  {
    seq(|t.methods|, i requires 0 <= i < |t.methods| => (t.methods[i].0, TypeErased(t.methods[i].1)))
  }

  function InitArgsErased(t: C.TypeInner): seq<C.Type>
    requires t.Class?
    decreases t, 0
  {
    seq(|t.initArgs|, i requires 0 <= i < |t.initArgs| => TypeErased(t.initArgs[i]))
  }

  // ---------------------------------------------------------------------
  // What the conversion keeps.
  // ---------------------------------------------------------------------

  /** A label keeps its kind and its payload, and can be read back. */
  lemma LabelKept(l: C.Label)
    ensures LabelFrom(l).Id? == l.Id? && LabelFrom(l).Named? == l.Named? && LabelFrom(l).Unnamed? == l.Unnamed?
    ensures LabelToCandid(LabelFrom(l)) == l
  {
  }

  /** The conversion of call modes is a bijection between the three modes. */
  lemma FuncModeBijection(m: C.FuncMode, m': FuncMode)
    ensures FuncModeToCandid(FuncModeFrom(m)) == m
    ensures FuncModeFrom(FuncModeToCandid(m')) == m'
  {
  }

  /** Modes, arguments and results keep their number and order, element by element. */
  lemma FunctionShape(f: C.Function)
    ensures |FunctionFrom(f).modes| == |f.modes| && |FunctionFrom(f).args| == |f.args| && |FunctionFrom(f).rets| == |f.rets|
    ensures forall i :: 0 <= i < |f.modes| ==> FunctionFrom(f).modes[i] == FuncModeFrom(f.modes[i])
    ensures forall i :: 0 <= i < |f.args| ==> FunctionFrom(f).args[i] == TypeFrom(f.args[i])
    ensures forall i :: 0 <= i < |f.rets| ==> FunctionFrom(f).rets[i] == TypeFrom(f.rets[i])
  {
  }

  /** Record and variant fields keep their number, order and labels; each type is converted. */
  lemma FieldsShape(fs: seq<C.Field>)
    ensures InnerFrom(C.Record(fs)).Record? && InnerFrom(C.Variant(fs)).Variant?
    ensures InnerFrom(C.Record(fs)).fields == InnerFrom(C.Variant(fs)).fields
    ensures |InnerFrom(C.Record(fs)).fields| == |fs|
    ensures forall i :: 0 <= i < |fs| ==>
      InnerFrom(C.Record(fs)).fields[i].id == LabelFrom(fs[i].id) &&
      InnerFrom(C.Record(fs)).fields[i].ty == TypeFrom(fs[i].ty)
  {
    assert FieldsFrom(C.Record(fs)) == FieldsFrom(C.Variant(fs));
    forall i | 0 <= i < |fs|
      ensures InnerFrom(C.Record(fs)).fields[i] == Field(LabelFrom(fs[i].id), TypeFrom(fs[i].ty))
    {
      assert InnerFrom(C.Record(fs)).fields[i] == FieldFrom(fs[i]);
    }
  }

  /** A service keeps its method names in order; each method type is converted. */
  lemma ServiceShape(ms: seq<(string, C.Type)>)
    ensures InnerFrom(C.Service(ms)).Service?
    ensures |InnerFrom(C.Service(ms)).methods| == |ms|
    ensures forall i :: 0 <= i < |ms| ==>
      InnerFrom(C.Service(ms)).methods[i].0 == ms[i].0 &&
      InnerFrom(C.Service(ms)).methods[i].1 == TypeFrom(ms[i].1)
  {
  }

  /** A class keeps the number and order of its init arguments; arguments and body are converted. */
  lemma ClassShape(args: seq<C.Type>, body: C.Type)
    ensures InnerFrom(C.Class(args, body)).Class?
    ensures |InnerFrom(C.Class(args, body)).initArgs| == |args|
    ensures forall i :: 0 <= i < |args| ==> InnerFrom(C.Class(args, body)).initArgs[i] == TypeFrom(args[i])
    ensures InnerFrom(C.Class(args, body)).body == TypeFrom(body)
  {
  }

  /**
   * `Knot` and `Var` are copied as leaves: the referenced name is kept as
   * it is and nothing is looked up.
   */
  lemma ReferencesAreLeaves(id: C.TypeId, name: string)
    ensures InnerFrom(C.Knot(id)) == Knot(TypeId(id.name))
    ensures InnerFrom(C.Var(name)) == Var(name)
  {
  }

  /** Every library constructor goes to the mirror constructor of the same name. */
  lemma ConstructorPreserved(t: C.TypeInner)
    ensures ConstructorName(InnerFrom(t)) == C.ConstructorName(t)
  {
    if IsPrimitive(t) {
      PrimitiveConstructorPreserved(t);
    } else if t.Opt? || t.Vec? || t.Record? || t.Variant? || t.Func? || t.Service? || t.Class? {
      CompositeConstructorPreserved(t);
    } else {
      match t
      case Knot(_) =>
      case Var(_) =>
      case Unknown =>
      case Principal =>
      case Future =>
    }
  }

  lemma CompositeConstructorPreserved(t: C.TypeInner)
    requires t.Opt? || t.Vec? || t.Record? || t.Variant? || t.Func? || t.Service? || t.Class?
    ensures ConstructorName(InnerFrom(t)) == C.ConstructorName(t)
  {
    if t.Opt? || t.Vec? || t.Record? || t.Variant? {
      match t
      case Opt(_) =>
      case Vec(_) =>
      case Record(_) =>
      case Variant(_) =>
    } else {
      CallableConstructorPreserved(t);
    }
  }

  lemma CallableConstructorPreserved(t: C.TypeInner)
    requires t.Func? || t.Service? || t.Class?
    ensures ConstructorName(InnerFrom(t)) == C.ConstructorName(t)
  {
    match t
    case Func(_) =>
    case Service(_) =>
    case Class(_, _) =>
  }

  /** The primitive types, `Null` through `Empty`: no payload, no reference. */
  predicate IsPrimitive(t: C.TypeInner)
  {
    t.Null? || t.Bool? || t.Nat?
    || t.Int? || t.Nat8? || t.Nat16? || t.Nat32? || t.Nat64?
    || t.Int8? || t.Int16? || t.Int32? || t.Int64? || t.Float32? || t.Float64?
    || t.Text? || t.Reserved? || t.Empty?
  }

  lemma PrimitiveConstructorPreserved(t: C.TypeInner)
    requires IsPrimitive(t)
    ensures ConstructorName(InnerFrom(t)) == C.ConstructorName(t)
    ensures InnerToCandid(InnerFrom(t)) == t
    ensures InnerErased(t) == t
    ensures InnerFrom(InnerToCandid(InnerFrom(t))) == InnerFrom(t)
  {
    match t
    case Null =>
    case Bool =>
    case Nat =>
    case Int =>
    case Nat8 =>
    case Nat16 =>
    case Nat32 =>
    case Nat64 =>
    case Int8 =>
    case Int16 =>
    case Int32 =>
    case Int64 =>
    case Float32 =>
    case Float64 =>
    case Text =>
    case Reserved =>
    case Empty =>
  }

  // ---------------------------------------------------------------------
  // Round trips, and injectivity up to the ids of knots.
  // ---------------------------------------------------------------------

  /** Reading a mirror back gives the library value, except for the ids of its knots. */
  lemma {:induction false} InnerRoundTrip(t: C.TypeInner)
    ensures InnerToCandid(InnerFrom(t)) == InnerErased(t)
    decreases t, 1
  {
    if t.Opt? || t.Vec? { WrapperRoundTrip(t); }
    else if t.Record? || t.Variant? { FieldsRoundTrip(t); }
    else if t.Func? { FunctionRoundTrip(t.func); }
    else if t.Service? { ServiceRoundTrip(t); }
    else if t.Class? { ClassRoundTrip(t); }
    else { LeafRoundTrip(t); }
  }

  lemma LeafRoundTrip(t: C.TypeInner)
    requires !(t.Opt? || t.Vec? || t.Record? || t.Variant? || t.Func? || t.Service? || t.Class?)
    ensures InnerToCandid(InnerFrom(t)) == InnerErased(t)
  {
    if IsPrimitive(t) {
      PrimitiveConstructorPreserved(t);
    } else {
      match t
      case Knot(_) =>
      case Var(_) =>
      case Unknown =>
      case Principal =>
      case Future =>
    }
  }

  lemma {:induction false} WrapperRoundTrip(t: C.TypeInner)
    requires t.Opt? || t.Vec?
    ensures InnerToCandid(InnerFrom(t)) == InnerErased(t)
    decreases t, 0
  {
    match t
    case Opt(x) => InnerRoundTrip(x.inner);
    case Vec(x) => InnerRoundTrip(x.inner);
  }

  lemma {:induction false} FieldsRoundTrip(t: C.TypeInner)
    requires t.Record? || t.Variant?
    ensures InnerToCandid(InnerFrom(t)) == InnerErased(t)
    decreases t, 0
  {
    forall i | 0 <= i < |t.fields| ensures FieldToCandid(FieldFrom(t.fields[i])) == FieldErased(t.fields[i]) {
      FieldRoundTrip(t.fields[i]);
    }
  }

  lemma {:induction false} ServiceRoundTrip(t: C.TypeInner)
    requires t.Service?
    ensures InnerToCandid(InnerFrom(t)) == InnerErased(t)
    decreases t, 0
  {
    var m := InnerFrom(t);
    assert m.methods == MethodsFrom(t);
    forall i | 0 <= i < |t.methods| ensures MethodsToCandid(m)[i] == MethodsErased(t)[i] {
      InnerRoundTrip(t.methods[i].1.inner);
    }
    assert MethodsToCandid(m) == MethodsErased(t);
  }

  lemma {:induction false} ClassRoundTrip(t: C.TypeInner)
    requires t.Class?
    ensures InnerToCandid(InnerFrom(t)) == InnerErased(t)
    decreases t, 0
  {
    var m := InnerFrom(t);
    assert m.initArgs == InitArgsFrom(t);
    forall i | 0 <= i < |t.initArgs| ensures InitArgsToCandid(m)[i] == InitArgsErased(t)[i] {
      InnerRoundTrip(t.initArgs[i].inner);
    }
    assert InitArgsToCandid(m) == InitArgsErased(t);
    InnerRoundTrip(t.body.inner);
  }

  lemma {:induction false} FieldRoundTrip(f: C.Field)
    ensures FieldToCandid(FieldFrom(f)) == FieldErased(f)
    decreases f
  {
    InnerRoundTrip(f.ty.inner);
  }

  lemma {:induction false} FunctionRoundTrip(f: C.Function)
    ensures FunctionToCandid(FunctionFrom(f)) == FunctionErased(f)
    decreases f
  {
    forall i | 0 <= i < |f.args| ensures InnerToCandid(InnerFrom(f.args[i].inner)) == InnerErased(f.args[i].inner) {
      InnerRoundTrip(f.args[i].inner);
    }
    forall i | 0 <= i < |f.rets| ensures InnerToCandid(InnerFrom(f.rets[i].inner)) == InnerErased(f.rets[i].inner) {
      InnerRoundTrip(f.rets[i].inner);
    }
  }

  /** Every mirror is the conversion of some library value: the one read back from it. */
  lemma {:induction false} MirrorRoundTrip(m: TypeInner)
    ensures InnerFrom(InnerToCandid(m)) == m
    decreases m, 1
  {
    if m.Opt? || m.Vec? { MirrorWrapperRoundTrip(m); }
    else if m.Record? || m.Variant? { MirrorFieldsRoundTrip(m); }
    else if m.Func? { MirrorFunctionRoundTrip(m.func); }
    else if m.Service? { MirrorServiceRoundTrip(m); }
    else if m.Class? { MirrorClassRoundTrip(m); }
    else { MirrorLeafRoundTrip(m); }
  }

  lemma MirrorLeafRoundTrip(m: TypeInner)
    requires !(m.Opt? || m.Vec? || m.Record? || m.Variant? || m.Func? || m.Service? || m.Class?)
    ensures InnerFrom(InnerToCandid(m)) == m
  {
    if IsPrimitive(InnerToCandid(m)) {
      PrimitiveConstructorPreserved(InnerToCandid(m));
    } else {
      match m
      case Knot(_) =>
      case Var(_) =>
      case Unknown =>
      case Principal =>
      case Future =>
    }
  }

  lemma {:induction false} MirrorWrapperRoundTrip(m: TypeInner)
    requires m.Opt? || m.Vec?
    ensures InnerFrom(InnerToCandid(m)) == m
    decreases m, 0
  {
    match m
    case Opt(x) => MirrorRoundTrip(x);
    case Vec(x) => MirrorRoundTrip(x);
  }

  lemma {:induction false} MirrorFieldsRoundTrip(m: TypeInner)
    requires m.Record? || m.Variant?
    ensures InnerFrom(InnerToCandid(m)) == m
    decreases m, 0
  {
    forall i | 0 <= i < |m.fields| ensures FieldFrom(FieldToCandid(m.fields[i])) == m.fields[i] {
      MirrorFieldRoundTrip(m.fields[i]);
    }
  }

  lemma {:induction false} MirrorServiceRoundTrip(m: TypeInner)
    requires m.Service?
    ensures InnerFrom(InnerToCandid(m)) == m
    decreases m, 0
  {
    var ms := m.methods;
    forall i | 0 <= i < |ms| ensures InnerFrom(InnerToCandid(ms[i].1)) == ms[i].1 {
      MirrorRoundTrip(ms[i].1);
    }
  }

  lemma {:induction false} MirrorClassRoundTrip(m: TypeInner)
    requires m.Class?
    ensures InnerFrom(InnerToCandid(m)) == m
    decreases m, 0
  {
    forall i | 0 <= i < |m.initArgs| ensures InnerFrom(InnerToCandid(m.initArgs[i])) == m.initArgs[i] {
      MirrorRoundTrip(m.initArgs[i]);
    }
    MirrorRoundTrip(m.body);
  }

  lemma {:induction false} MirrorFieldRoundTrip(f: Field)
    ensures FieldFrom(FieldToCandid(f)) == f
    decreases f
  {
    MirrorRoundTrip(f.ty);
  }

  lemma {:induction false} MirrorFunctionRoundTrip(f: Function)
    ensures FunctionFrom(FunctionToCandid(f)) == f
    decreases f
  {
    forall i | 0 <= i < |f.args| ensures InnerFrom(InnerToCandid(f.args[i])) == f.args[i] {
      MirrorRoundTrip(f.args[i]);
    }
    forall i | 0 <= i < |f.rets| ensures InnerFrom(InnerToCandid(f.rets[i])) == f.rets[i] {
      MirrorRoundTrip(f.rets[i]);
    }
  }

  /**
   * Two library values have the same mirror exactly when they agree
   * everywhere except in the ids of their knots.
   */
  lemma InjectiveUpToKnotIds(a: C.TypeInner, b: C.TypeInner)
    ensures InnerFrom(a) == InnerFrom(b) <==> InnerErased(a) == InnerErased(b)
  {
    InnerRoundTrip(a);
    InnerRoundTrip(b);
    if InnerErased(a) == InnerErased(b) {
      MirrorRoundTrip(InnerFrom(a));
      MirrorRoundTrip(InnerFrom(b));
    }
  }

  /** Knots that differ only in their id have the same mirror. */
  lemma KnotIdIsDropped(i: nat, j: nat, name: string)
    requires i != j
    ensures C.Knot(C.TypeId(i, name)) != C.Knot(C.TypeId(j, name))
    ensures InnerFrom(C.Knot(C.TypeId(i, name))) == InnerFrom(C.Knot(C.TypeId(j, name)))
  {
  }
}
