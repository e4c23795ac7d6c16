/**
 * The parameter-type register of subtx/paramRegister.go: two maps meant to
 * relate a type and its name. Only `nameToType` is ever written.
 */
module ParamRegister {
  import opened Wrappers
  import opened Reflect
  import opened SubTxDefinitions

  datatype RegisterError =
    | NotRegistered(t: Ty)                   // "could not find the type in param type register"
    | InvalidFunction(cause: ValidationError) // "invalid function"
    | OutputIndexOutOfRange                  // the panic of Out(i) with i >= NumOut()

  /** The key a parameter type is stored under: `PkgPath + "/" + Name` of the pointee. */
  function ParamName(t: Ty): string {
    PkgPath(Deref(t)) + "/" + Name(Deref(t))
  }

  /** `nameToType` after `addParam(t)`. */
  function Registered(m: map<string, Ty>, t: Ty): map<string, Ty> {
    m[ParamName(t) := Deref(t)]
  }

  /** `nameToType` after `addParam` of each of `ts`, in order. */
  function RegisteredAll(m: map<string, Ty>, ts: seq<Ty>): map<string, Ty>
    decreases |ts|
  {
    if ts == [] then m else Registered(RegisteredAll(m, ts[..|ts| - 1]), ts[|ts| - 1])
  }

  /** The names of a list of types. */
  function ParamNames(ts: seq<Ty>): set<string> {
    set t | t in ts :: ParamName(t)
  }

  /**
   * Registering a list adds exactly the names of its types as keys, and a
   * name not among them keeps its old value.
   */
  lemma {:induction false} RegisteredAllKeys(m: map<string, Ty>, ts: seq<Ty>)
    ensures RegisteredAll(m, ts).Keys == m.Keys + ParamNames(ts)
    ensures forall n :: n in m && n !in ParamNames(ts) ==> RegisteredAll(m, ts)[n] == m[n]
    decreases |ts|
  {
    if ts != [] {
      var front := ts[..|ts| - 1];
      RegisteredAllKeys(m, front);
      assert ts == front + [ts[|ts| - 1]];
      assert ParamNames(ts) == ParamNames(front) + {ParamName(ts[|ts| - 1])};
    }
  }

  /**
   * Each type of the list is found under its name, as its pointee, unless a
   * later type of the list has the same name.
   */
  lemma {:induction false} RegisteredAllAt(m: map<string, Ty>, ts: seq<Ty>, i: nat)
    requires i < |ts|
    requires forall j :: i < j < |ts| ==> ParamName(ts[j]) != ParamName(ts[i])
    ensures ParamName(ts[i]) in RegisteredAll(m, ts)
    ensures RegisteredAll(m, ts)[ParamName(ts[i])] == Deref(ts[i])
    decreases |ts|
  {
    if i < |ts| - 1 {
      var front := ts[..|ts| - 1];
      assert forall j :: i < j < |front| ==> front[j] == ts[j];
      RegisteredAllAt(m, front, i);
    }
  }

  /**
   * A type and a pointer to it land on the same key with the same value, so
   * registering `*T` after `T` changes nothing. Only one pointer level is
   * stripped: `**T` is stored as `*T`, under the name "/".
   */
  lemma PointerSharesEntry(m: map<string, Ty>, t: Ty)
    requires !t.Pointer?
    ensures ParamName(Pointer(t)) == ParamName(t)
    ensures Registered(m, Pointer(t)) == Registered(m, t)
    ensures Registered(Registered(m, t), Pointer(t)) == Registered(m, t)
    ensures ParamName(Pointer(Pointer(t))) == "/"
  {
  }

  /** A later registration under the same name overwrites an earlier one. */
  lemma LaterWins(m: map<string, Ty>, a: Ty, b: Ty)
    requires ParamName(a) == ParamName(b)
    ensures Registered(Registered(m, a), b) == Registered(m, b)
  {
  }

  class ParamTypeRegister {
    var nameToType: map<string, Ty>
    var typeToName: map<Ty, string>

    /**
     * What `reflect.TypeOf((context.Context)(nil))` evaluates to in the
     * validation `Add` performs; always `ContextReference` (nil).
     */
    const contextReference: Option<Ty>

    /** Nothing in the source writes `typeToName`, so it stays empty. */
    ghost predicate NeverResolves()
      reads this
    {
      typeToName == map[]
    }

    /** NewParamTypeRegister: both maps empty. */
    constructor ()
      ensures nameToType == map[] && typeToName == map[]
      ensures NeverResolves()
      ensures contextReference == ContextReference
    {
      nameToType := map[];
      typeToName := map[];
      contextReference := ContextReference;
    }

    /**
     * Strips one pointer level and looks the type up in `typeToName` only;
     * in a register that never resolves, this fails for every type.
     */
    method GetRegisteredType(t: Ty) returns (r: Result<string, RegisterError>)
      ensures r.Success? <==> Deref(t) in typeToName
      ensures r.Success? ==> r.value == typeToName[Deref(t)]
      ensures r.Failure? ==> r.error == NotRegistered(Deref(t))
      ensures NeverResolves() ==> r == Failure(NotRegistered(Deref(t)))
    {
      var u := t;
      if u.Pointer? {
        u := u.elem;
      }
      if u in typeToName {
        return Success(typeToName[u]);
      }
      return Failure(NotRegistered(u));
    }

    /**
     * Validates `obj` like a step callable, then registers its input types
     * and then its output types. The output loop runs over the number of
     * inputs: with fewer outputs than inputs it registers every output and
     * then panics.
     */
    method Add(obj: Callable) returns (err: Option<RegisterError>)
      modifies this
      ensures typeToName == old(typeToName)
      ensures ValidateAndGetFuncValue(obj, contextReference).Failure? ==>
        err == Some(InvalidFunction(ValidateAndGetFuncValue(obj, contextReference).error)) && nameToType == old(nameToType)
      ensures ValidateAndGetFuncValue(obj, contextReference).Success? ==>
        && (err == None <==> |obj.params| <= |obj.results|)
        && (err.Some? ==> err == Some(OutputIndexOutOfRange))
        && nameToType == RegisteredAll(RegisteredAll(old(nameToType), obj.params),
                                       obj.results[..if |obj.params| <= |obj.results| then |obj.params| else |obj.results|])
        && ParamName(obj.params[0]) in nameToType
      ensures contextReference == ContextReference ==> err.Some? && nameToType == old(nameToType)
    {
      var funcValue := ValidateAndGetFuncValue(obj, contextReference);
      if funcValue.Failure? {
        return Some(InvalidFunction(funcValue.error));
      }
      var funcType := funcValue.value;
      AddInputParams(funcType);
      ghost var afterInputs := nameToType;
      RegisteredAllKeys(old(nameToType), funcType.params);
      assert ParamName(funcType.params[0]) in afterInputs;
      var panicked := AddOutputParams(funcType);
      err := if panicked then Some(OutputIndexOutOfRange) else None;
      var outs := funcType.results[..if |funcType.params| <= |funcType.results| then |funcType.params| else |funcType.results|];
      RegisteredAllKeys(afterInputs, outs);
    }

    /** Registers every input type, the leading context included. */
    method AddInputParams(funcType: Callable)
      requires funcType.Func?
      modifies this
      ensures typeToName == old(typeToName)
      ensures nameToType == RegisteredAll(old(nameToType), funcType.params)
      ensures forall t :: t in funcType.params ==> ParamName(t) in nameToType
    {
      var i := 0;
      while i < |funcType.params|
        invariant 0 <= i <= |funcType.params|
        invariant typeToName == old(typeToName)
        invariant nameToType == RegisteredAll(old(nameToType), funcType.params[..i])
      {
        AddParam(funcType.params[i]);
        assert funcType.params[..i + 1][..i] == funcType.params[..i];
        i := i + 1;
      }
      assert funcType.params[..i] == funcType.params;
      RegisteredAllKeys(old(nameToType), funcType.params);
    }

    /**
     * Loops `i` over the number of INPUTS and registers `Out(i)`: registers
     * the first min(inputs, outputs) output types and reports a panic when
     * there are more inputs than outputs.
     */
    method AddOutputParams(funcType: Callable) returns (panicked: bool)
      requires funcType.Func?
      modifies this
      ensures typeToName == old(typeToName)
      ensures panicked <==> |funcType.params| > |funcType.results|
      ensures nameToType == RegisteredAll(old(nameToType),
        funcType.results[..if |funcType.params| <= |funcType.results| then |funcType.params| else |funcType.results|])
    {
      var i := 0;
      while i < |funcType.params|
        invariant 0 <= i <= |funcType.params|
        invariant i <= |funcType.results|
        invariant typeToName == old(typeToName)
        invariant nameToType == RegisteredAll(old(nameToType), funcType.results[..i])
      {
        if i >= |funcType.results| {
          return true;
        }
        AddParam(funcType.results[i]);
        assert funcType.results[..i + 1][..i] == funcType.results[..i];
        i := i + 1;
      }
      panicked := false;
    }

    /** Stores the pointee of `paramType` under its name, overwriting any entry. */
    method AddParam(paramType: Ty)
      modifies this
      ensures typeToName == old(typeToName)
      ensures nameToType == Registered(old(nameToType), paramType)
      ensures nameToType[ParamName(paramType)] == Deref(paramType)
    {
      var t := paramType;
      if t.Pointer? {
        t := t.elem;
      }
      var paramName := PkgPath(t) + "/" + Name(t);
      nameToType := nameToType[paramName := t];
    }
  }
}
