/**
 * The loaded-program handle of src/lib.rs: the type environment and the
 * actor type that loading produced, and the two projections built on them,
 * `get_functions` and `to_json`. Both fill a fresh `BTreeMap` one `insert`
 * at a time; here the map is a `SortedMap.Map` value that the loop
 * reassigns.
 */
module Lib {
  import opened Results
  import SortedMap
  import C = CandidTypes
  import T = Types

  /** The error a library call reports, carried across as a `JsError`. */
  datatype Error = Error(message: string)

  /**
   * `TypeEnv::as_service`: the method table of a type, resolving `Var`s
   * through the environment and unwrapping a class to its body. It is a
   * library function, so the model takes it as a parameter.
   */
  type AsService = (C.TypeEnv, C.Type) -> Result<seq<(string, C.Type)>, Error>

  /** `TypeEnv::as_func`: the function signature a type resolves to, if any. */
  type AsFunc = (C.TypeEnv, C.Type) -> Result<C.Function, Error>

  /** The names, among the first `n` methods, whose type resolves to a function. */
  ghost function ResolvedNames(asFunc: AsFunc, env: C.TypeEnv, ms: seq<(string, C.Type)>, n: int): set<string>
    requires 0 <= n <= |ms|
  {
    set i | 0 <= i < n && asFunc(env, ms[i].1).Ok? :: ms[i].0
  }

  /**
   * Method `i` resolves to a function and no later method below `n` of the
   * same name does: its entry is the one a map filled in order keeps.
   */
  ghost predicate LastResolved(asFunc: AsFunc, env: C.TypeEnv, ms: seq<(string, C.Type)>, i: int, n: int)
    requires 0 <= i < n <= |ms|
  {
    && asFunc(env, ms[i].1).Ok?
    && forall j :: i < j < n && ms[j].0 == ms[i].0 ==> asFunc(env, ms[j].1).Err?
  }

  /**
   * The loop invariant of `get_functions` after the first `n` methods: the
   * keys are the resolved names, and each name holds the mirror of the last
   * method of that name that resolved.
   */
  ghost predicate Filled(asFunc: AsFunc, env: C.TypeEnv, ms: seq<(string, C.Type)>, n: int, types: SortedMap.Map<T.Function>)
    requires 0 <= n <= |ms|
  {
    && SortedMap.Keys(types) == ResolvedNames(asFunc, env, ms, n)
    && forall i :: 0 <= i < n && LastResolved(asFunc, env, ms, i, n) ==>
         SortedMap.Get(types, ms[i].0) == Some(T.FunctionFrom(asFunc(env, ms[i].1).value))
  }

  /** One iteration of the `get_functions` loop keeps `Filled`. */
  lemma {:induction false} FilledStep(asFunc: AsFunc, env: C.TypeEnv, ms: seq<(string, C.Type)>, n: int,
                                       types: SortedMap.Map<T.Function>, types': SortedMap.Map<T.Function>)
    requires 0 <= n < |ms|
    requires Filled(asFunc, env, ms, n, types)
    requires types' == if asFunc(env, ms[n].1).Ok?
      then SortedMap.Insert(types, ms[n].0, T.FunctionFrom(asFunc(env, ms[n].1).value))
      else types
    ensures Filled(asFunc, env, ms, n + 1, types')
  {
    var ok := asFunc(env, ms[n].1).Ok?;
    assert ResolvedNames(asFunc, env, ms, n + 1)
        == ResolvedNames(asFunc, env, ms, n) + (if ok then {ms[n].0} else {});
    forall i | 0 <= i < n + 1 && LastResolved(asFunc, env, ms, i, n + 1)
      ensures SortedMap.Get(types', ms[i].0) == Some(T.FunctionFrom(asFunc(env, ms[i].1).value))
    {
      if i < n {
        assert LastResolved(asFunc, env, ms, i, n);
        if ok {
          assert ms[n].0 != ms[i].0;
        }
      }
    }
  }

  /**
   * The loop invariant of `to_json` after the first `n` definitions: the
   * keys are "Service" and those definitions' names, each definition maps
   * to its mirror, and "Service" still holds the actor unless one of them
   * is named so.
   */
  ghost predicate JsonFilled(env: C.TypeEnv, actor: C.Type, n: int, types: SortedMap.Map<T.TypeInner>)
    requires 0 <= n <= |env|
  {
    && SortedMap.Keys(types) == {"Service"} + SortedMap.Keys(env[..n])
    && (forall i :: 0 <= i < n ==> SortedMap.Get(types, env[i].0) == Some(T.TypeFrom(env[i].1)))
    && ("Service" !in SortedMap.Keys(env[..n]) ==> SortedMap.Get(types, "Service") == Some(T.TypeFrom(actor)))
  }

  /** Before the loop the map holds the actor alone, under "Service". */
  lemma JsonFilledStart(env: C.TypeEnv, actor: C.Type, types: SortedMap.Map<T.TypeInner>)
    requires types == SortedMap.Insert([], "Service", T.TypeFrom(actor))
    ensures JsonFilled(env, actor, 0, types)
  {
    assert SortedMap.Keys(env[..0]) == {};
  }

  /** One iteration of the `to_json` loop keeps `JsonFilled`. */
  lemma JsonFilledStep(env: C.TypeEnv, actor: C.Type, n: int,
                       types: SortedMap.Map<T.TypeInner>, types': SortedMap.Map<T.TypeInner>)
    requires 0 <= n < |env|
    requires JsonFilled(env, actor, n, types)
    requires types' == SortedMap.Insert(types, env[n].0, T.TypeFrom(env[n].1))
    ensures JsonFilled(env, actor, n + 1, types')
  {
    SortedMap.KeysSnoc(env, n);
    forall i | 0 <= i < n ensures env[i].0 != env[n].0 {
      SortedMap.DistinctKeys(env, i, n);
    }
  }

  /** Once every definition is in, the map is what `to_json` promises. */
  lemma JsonFilledAll(env: C.TypeEnv, actor: C.Type, types: SortedMap.Map<T.TypeInner>)
    requires JsonFilled(env, actor, |env|, types)
    ensures SortedMap.Keys(types) == {"Service"} + SortedMap.Keys(env)
    ensures |types| == |env| + (if "Service" in SortedMap.Keys(env) then 0 else 1)
    ensures forall i :: 0 <= i < |env| ==> SortedMap.Get(types, env[i].0) == Some(T.TypeFrom(env[i].1))
    ensures "Service" !in SortedMap.Keys(env) ==> SortedMap.Get(types, "Service") == Some(T.TypeFrom(actor))
  {
    assert env[..|env|] == env;
    var keys := SortedMap.Keys(env);
    assert SortedMap.Keys(types) == {"Service"} + keys;
    SortedMap.KeyCount(types);
    SortedMap.KeyCount(env);
    if "Service" in keys {
      assert {"Service"} + keys == keys;
    } else {
      assert |{"Service"} + keys| == |keys| + 1;
    }
  }

  /** `struct Candid { env, actor }`, built once when a program is loaded. */
  datatype Candid = Candid(env: C.TypeEnv, actor: C.Type)
  {
    /**
     * `get_functions`: the mirror of every method of the actor whose type
     * is a function, by method name. Fails exactly when the actor is not a
     * service; a method whose type is not a function is skipped.
     */
    method GetFunctions(asService: AsService, asFunc: AsFunc) returns (r: Result<SortedMap.Map<T.Function>, Error>)
      ensures asService(env, actor).Err? ==> r == Err(asService(env, actor).error)
      ensures asService(env, actor).Ok? ==> r.Ok?
      ensures r.Ok? && asService(env, actor).Ok? ==>
        var ms := asService(env, actor).value;
        SortedMap.Keys(r.value) == ResolvedNames(asFunc, env, ms, |ms|)
      ensures r.Ok? && asService(env, actor).Ok? ==>
        var ms := asService(env, actor).value;
        forall i :: 0 <= i < |ms| && LastResolved(asFunc, env, ms, i, |ms|) ==>
          SortedMap.Get(r.value, ms[i].0) == Some(T.FunctionFrom(asFunc(env, ms[i].1).value))
    {
      var service := asService(env, actor);
      if service.Err? {
        return Err(service.error);
      }
      var ms := service.value;
      var types: SortedMap.Map<T.Function> := [];
      for n := 0 to |ms|
        invariant Filled(asFunc, env, ms, n, types)
      {
        var funcType := asFunc(env, ms[n].1);
        ghost var before := types;
        if funcType.Ok? {
          types := SortedMap.Insert(types, ms[n].0, T.FunctionFrom(funcType.value));
        }
        FilledStep(asFunc, env, ms, n, before, types);
      }
      return Ok(types);
    }

    /**
     * `to_json`: the mirror of the actor under the name "Service", then the
     * mirror of every definition of the environment under its own name. The
     * environment is inserted after the actor, so a definition named
     * "Service" replaces the actor's entry.
     */
    method ToJson() returns (types: SortedMap.Map<T.TypeInner>)
      ensures "Service" in SortedMap.Keys(types)
      ensures SortedMap.Keys(types) == {"Service"} + SortedMap.Keys(env)
      ensures |types| == |env| + (if "Service" in SortedMap.Keys(env) then 0 else 1)
      ensures forall i :: 0 <= i < |env| ==> SortedMap.Get(types, env[i].0) == Some(T.TypeFrom(env[i].1))
      ensures "Service" !in SortedMap.Keys(env) ==> SortedMap.Get(types, "Service") == Some(T.TypeFrom(actor))
    {
      types := SortedMap.Insert([], "Service", T.TypeFrom(actor));
      JsonFilledStart(env, actor, types);
      for n := 0 to |env|
        invariant JsonFilled(env, actor, n, types)
      {
        ghost var before := types;
        types := SortedMap.Insert(types, env[n].0, T.TypeFrom(env[n].1));
        JsonFilledStep(env, actor, n, before, types);
      }
      JsonFilledAll(env, actor, types);
    }
  }
}
