/**
 * The step-definition registry of subtx/subTxDefinitions.go: it validates
 * an action and a compensate callable and stores them under a step id.
 */
module SubTxDefinitions {
  import opened Wrappers
  import opened Reflect

  /**
   * The value of `reflect.TypeOf((context.Context)(nil))`: TypeOf of a nil
   * interface value is the nil Type, so the reference the context check
   * compares against is nil, and no parameter type equals it.
   */
  const ContextReference: Option<Ty> := None

  datatype ValidationError = MustBeFunction | FirstArgumentMustBeContext

  datatype AddError =
    | InvalidAction(subTxID: string, cause: ValidationError)
    | InvalidCompensate(subTxID: string, cause: ValidationError)

  /** A stored step: its id, action and compensate. */
  datatype Definition = Definition(subTxID: string, action: Callable, compensate: Callable)

  predicate IsNotAFunction(v: Callable) {
    !v.Func?
  }

  /** `NumIn() < 1 || In(0) != reference`, for a function value. */
  predicate IsFirstArgumentNotAContext(v: Callable, reference: Option<Ty>)
    requires v.Func?
  {
    |v.params| < 1 || Some(v.params[0]) != reference
  }

  /**
   * The function check first, then the context check. The result types are
   * never looked at.
   */
  function ValidateAndGetFuncValue(obj: Callable, reference: Option<Ty>): (r: Result<Callable, ValidationError>)
    ensures r.Success? <==> obj.Func? && |obj.params| >= 1 && Some(obj.params[0]) == reference
    ensures r.Success? ==> r.value == obj
    ensures obj.NotFunc? ==> r == Failure(MustBeFunction)
    ensures obj.Func? && r.Failure? ==> r.error == FirstArgumentMustBeContext
  {
    if IsNotAFunction(obj) then Failure(MustBeFunction)
    else if IsFirstArgumentNotAContext(obj, reference) then Failure(FirstArgumentMustBeContext)
    else Success(obj)
  }

  /**
   * With the reference the source actually compares against, every
   * callable is rejected: a non-function by the function check, and every
   * function, even one whose first parameter is context.Context, by the
   * context check.
   */
  lemma EveryCallableRejected(obj: Callable)
    ensures ValidateAndGetFuncValue(obj, ContextReference).Failure?
    ensures obj.Func? ==> ValidateAndGetFuncValue(obj, ContextReference) == Failure(FirstArgumentMustBeContext)
  {
  }

  /** A function without parameters never passes, whatever the reference. */
  lemma NoParametersRejected(results: seq<Ty>, reference: Option<Ty>)
    ensures ValidateAndGetFuncValue(Func([], results), reference) == Failure(FirstArgumentMustBeContext)
  {
  }

  /**
   * Validation depends only on whether the value is a function and on its
   * first parameter: result types and the remaining parameters are never
   * inspected, so an action and a compensate with different parameter lists
   * are judged independently.
   */
  lemma ValidationIgnoresRest(first: Ty, moreA: seq<Ty>, resultsA: seq<Ty>, moreB: seq<Ty>, resultsB: seq<Ty>, reference: Option<Ty>)
    ensures ValidateAndGetFuncValue(Func([first] + moreA, resultsA), reference).Success?
        <==> ValidateAndGetFuncValue(Func([first] + moreB, resultsB), reference).Success?
  {
  }

  /** The `definitions` map type with its `add` method. */
  class Definitions {
    var defs: map<string, Definition>

    /**
     * What `reflect.TypeOf((context.Context)(nil))` evaluates to inside the
     * context check; always `ContextReference` (nil). Keeping it a field lets
     * the code after the check be stated and verified for any reference.
     */
    const contextReference: Option<Ty>

    /** An empty `definitions{}` map. */
    constructor ()
      ensures defs == map[]
      ensures contextReference == ContextReference
    {
      defs := map[];
      contextReference := ContextReference;
    }

    /**
     * Validates the action, then the compensate; on success writes exactly
     * the key `subTxID`, replacing any earlier definition under it.
     */
    method Add(subTxID: string, action: Callable, compensate: Callable) returns (err: Option<AddError>)
      modifies this
      ensures ValidateAndGetFuncValue(action, contextReference).Failure? ==>
        err == Some(InvalidAction(subTxID, ValidateAndGetFuncValue(action, contextReference).error)) && defs == old(defs)
      ensures ValidateAndGetFuncValue(action, contextReference).Success? && ValidateAndGetFuncValue(compensate, contextReference).Failure? ==>
        err == Some(InvalidCompensate(subTxID, ValidateAndGetFuncValue(compensate, contextReference).error)) && defs == old(defs)
      ensures ValidateAndGetFuncValue(action, contextReference).Success? && ValidateAndGetFuncValue(compensate, contextReference).Success? ==>
        err == None && defs == old(defs)[subTxID := Definition(subTxID, action, compensate)]
      ensures contextReference == ContextReference ==> err.Some? && err.value.InvalidAction? && defs == old(defs)
    {
      var actionFunc := ValidateAndGetFuncValue(action, contextReference);
      if actionFunc.Failure? {
        return Some(InvalidAction(subTxID, actionFunc.error));
      }
      var compensateFunc := ValidateAndGetFuncValue(compensate, contextReference);
      if compensateFunc.Failure? {
        return Some(InvalidCompensate(subTxID, compensateFunc.error));
      }
      defs := defs[subTxID := Definition(subTxID, actionFunc.value, compensateFunc.value)];
      err := None;
    }
  }
}
