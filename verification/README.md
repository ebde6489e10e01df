# Candid type mirror and program projections

A model of the core of a WebAssembly wrapper around a Candid IDL parser.
Candid is the interface description language of Internet Computer services.
The wrapper loads a Candid program and keeps two things from it: the type
environment, which maps names to type definitions, and the actor, which is
the service type the program describes. It offers two projections of them
to JavaScript:

- `to_json` gives the mirror of the actor under the key `"Service"` and the
  mirror of every named definition under its own name.
- `get_functions` gives the mirror of every actor method whose type is a
  function, keyed by method name.

A mirror is a serializable copy of the library's type tree. The
conversion into it (`src/types.rs`) copies one constructor to one
constructor. It never consults the environment: `Knot` and `Var` references
are copied as leaves. So it is plain structural recursion over a finite tree.

Files, one module each:

- `results.dfy`: `Option` and `Result`.
- `sorted_map.dfy`: `BTreeMap<String, V>` as its entries in key order.
  It holds Rust's order on strings (lexicographic by code point, proved a
  strict total order), `Get`, and `Insert` (a later insert of a key
  replaces the earlier binding). Both the environment and the two output
  maps are of this kind, so their iteration and serialization order is
  key order.
- `candid_types.dfy`: the library's type tree (`candid::types`), the input
  of the conversion.
- `types.dfy`: the mirror, the `From` conversions, their way back, and the
  lemmas. These cover what each conversion keeps, the two round trips, and
  injectivity up to knot identities.
- `lib.dfy`: the `Candid` handle with `ToJson` and `GetFunctions`. Each is a
  loop that reassigns a map value, as the source fills a `BTreeMap`.

Three consequences of the code that the model keeps:

- `to_json` fills a `BTreeMap`, so its entries come out in key order. An
  environment definition named `Service` replaces the actor's entry,
  because the environment is inserted after the actor.
- `get_functions` fails when the actor cannot be viewed as a service. It
  does not return an empty map in that case.
- The library's `TypeId` pairs a numeric identity with a display name. The
  conversion keeps only the name (`src/types.rs:82-88`). So the conversion
  is injective only up to the ids of `Knot`s: `Types.InjectiveUpToKnotIds`
  proves exactly that, and `Types.KnotIdIsDropped` shows that any two
  knots differing only in their id have the same mirror.

## Model

| member | source | states |
|---|---|---|
| `Types.LabelKept` | src/types.rs:13-21 | a label keeps its kind (`Id`, `Named`, `Unnamed`) and its payload; reading the mirror back gives the original label |
| `Types.FuncModeBijection` | src/types.rs:48-56 | the mode conversion and its way back are inverse to each other, so the conversion is a bijection on the three modes |
| `Types.FunctionShape` | src/types.rs:66-73 | modes, arguments and results keep their number and order, and each element is converted pointwise |
| `Types.FieldsShape` | src/types.rs:155-160 | a record or variant keeps the number and order of its fields; each field keeps its label and has its type converted; records and variants convert alike |
| `Types.FieldRoundTrip` | src/types.rs:30-37 | a field's mirror, read back, is the field with its label unchanged and its type erased only in knot ids |
| `Types.ServiceShape` | src/types.rs:162-167 | a service keeps its method names in order and converts each method type |
| `Types.ClassShape` | src/types.rs:168-171 | a class keeps the number and order of its init arguments and converts both the arguments and the body |
| `Types.ReferencesAreLeaves` | src/types.rs:150-151 | `Knot` and `Var` copy the referenced name unchanged and are leaves of the mirror; nothing is looked up |
| `Types.ConstructorPreserved` | src/types.rs:130-176 | every library constructor, the primitives included, goes to the mirror constructor of the same name |
| `Types.InnerRoundTrip` | src/types.rs:130-176 | reading a mirror back gives the library value with every knot id set to 0, by induction over the whole tree |
| `Types.FunctionRoundTrip` | src/types.rs:66-73 | the same round trip for a function signature: modes kept, argument and result types recovered up to knot ids |
| `Types.MirrorRoundTrip` | src/types.rs:90-122 | every mirror value is the conversion of some library value, namely the one read back from it |
| `Types.InjectiveUpToKnotIds` | src/types.rs:124-176 | two library types have the same mirror if and only if they agree everywhere except in the ids of their knots |
| `Types.KnotIdIsDropped` | src/types.rs:82-88 | two knots that differ only in their numeric id are different library values with the same mirror |
| `SortedMap.LessIrreflexive` | src/lib.rs:65 | no string is below itself in Rust's string order |
| `SortedMap.LessTransitive` | src/lib.rs:65 | Rust's string order is transitive |
| `SortedMap.LessTotal` | src/lib.rs:65 | any two distinct strings are ordered one way or the other |
| `SortedMap.KeyCount` | src/lib.rs:65 | a map built in key order has exactly one entry per key, so no key appears twice |
| `SortedMap.Get` | src/lib.rs:65 | the lookup through which the built `BTreeMap` is observed: it finds a value exactly for the keys of the map, and the value it finds is the one stored with that key |
| `SortedMap.Insert` | src/lib.rs:66-69 | after an insert the key maps to the new value, replacing any earlier binding; every other binding is unchanged; the key set grows by the key; the entries stay in key order |
| `SortedMap.GetAt` | src/lib.rs:65 | in the built `BTreeMap`, the entry stored at any position is what a lookup of its key returns |
| `Lib.Candid.ToJson` | src/lib.rs:63-73 | the result always has key "Service"; its keys are exactly "Service" and the environment's names, one entry each; each environment name maps to the mirror of its definition; the actor's mirror is under "Service" unless the environment defines "Service", which then overwrites it; entries are in key order |
| `Lib.Candid.GetFunctions` | src/lib.rs:50-61 | fails with the library's error exactly when the actor cannot be viewed as a service; otherwise the keys are exactly the method names whose type resolves to a function, so methods that do not resolve are skipped without error; each value is the mirror of the function type of the last method of that name |

## Left out

- `encode_idl_args` and `decode_idl_args` (src/lib.rs:22-48) are chains of library calls: the literal parser, the wire codec and type annotation, none of which is part of this model. `decode_idl_args` annotates the decoded values with the method's argument types and an empty environment (src/lib.rs:45), not with its return types.
- `parse_candid_file` (src/lib.rs:76-82): parsing and type checking are done by the library's `check_prog`, which is not part of this model. The `Candid` value is taken as given.
- `TypeEnv::as_service`, `TypeEnv::as_func` and `TypeEnv::get_method` are library functions. `as_service` and `as_func` are parameters of `GetFunctions`, and nothing is assumed about them.
- `Lib.Candid.ToJson`: returns the map, not its JSON text. `serde_json::to_string` and its error path are not modelled, and neither is the camelCase tagging of the serialized form.
- `Lib.Candid.ToJson`: `Label` is serialized untagged (src/types.rs:6-11), so `Id(n)` and `Unnamed(n)` become the same JSON number. The JSON text therefore tells apart fewer labels than the mirror value the model returns.
- `Lib.Candid.GetFunctions`: the conversion of the map by `JsValue::from_serde` and its error path are not modelled.
- The `wee_alloc` allocator and the `wasm_bindgen` glue (src/lib.rs:3-12) are deployment concerns.
- `Rc` sharing in the library's types is invisible in a value model. Library values are compared structurally.
- `Float32` and `Float64` occur only as type tags. No floating point is involved.
