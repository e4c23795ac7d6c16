/**
 * The Saga transaction coordinator of tx/transaction.go. A `Tx` drives one
 * transaction's append-only log in a `Storage`: it records the start of the
 * transaction, brackets each step's action with StartSubTx and EndSubTx
 * entries, and on rollback replays the compensation of every started step
 * in log order.
 *
 * What lies outside the coordinator is modelled by its effect only: a
 * storage call may fail, and a registered callable, when called, may return
 * nil or an error. Each such outcome is an arbitrary choice, and every
 * contract below holds for every choice.
 */
module Tx {
  import opened Wrappers
  import opened Log
  import Memory
  import opened Reflect
  import opened SubTxDefinitions

  /** A domain argument of a step, as passed to `ExecSubTx`. */
  datatype Value = IntValue(i: int) | StringValue(s: string)

  /** One `reflect.Value` among the results of calling a callable. */
  datatype Ret = NilError | ErrorValue(message: string) | Returned(v: Value)

  /** A `context.Context`, passed as the first argument of every call. */
  datatype Context = Context(name: string)

  /** A `trace.Logger`: a fire-and-forget sink; what it is told is not modelled. */
  datatype Logger = DummyLogger | NamedLogger(name: string)

  datatype Role = Action | Compensate

  /** One invocation of a registered callable, with the context and arguments it got. */
  datatype Call = Call(subTxID: string, role: Role, fn: Callable, ctx: Context, args: seq<Value>)

  /**
   * The `Saga` dependency: the step definitions and the two argument
   * codecs. Its implementation is not part of this model; each codec is an
   * arbitrary partial function, given as the map of the inputs it accepts.
   */
  datatype Saga = Saga(
    defs: map<string, Definition>,
    marshal: map<seq<Value>, seq<ArgData>>,
    unmarshal: map<seq<ArgData>, seq<Value>>)

  /** `MarshallArgs`; None when it fails. */
  function Marshal(saga: Saga, args: seq<Value>): Option<seq<ArgData>> {
    if args in saga.marshal then Some(saga.marshal[args]) else None
  }

  /** `UnmarshallArgs`; None when it fails. */
  function Unmarshal(saga: Saga, data: seq<ArgData>): Option<seq<Value>> {
    if data in saga.unmarshal then Some(saga.unmarshal[data]) else None
  }

  /** The errors the coordinator returns, after the source's annotations. */
  datatype TxError =
    | ExistenceCheckFailed                      // "could not find if the TxID is already in use"
    | ResidualRollbackFailed(cause: TxError)    // "could not rollback TxID"
    | AppendFailed(entry: Log)                  // a storage AppendLog of this entry failed
    | NoDefinition(subTxID: string)             // "could not get SubTx definition"
    | MarshalFailed                             // "could not marshal params"
    | ActionFailed(subTxID: string, message: string)       // the action returned an error
    | ReadLogsFailed                            // "could not get Tx logs from storage"
    | UnmarshalFailed                           // "could not unmarshall compensate arguments"
    | CompensationFailed(subTxID: string, message: string) // the compensate returned an error
    | CouldNotCompensate(subTxID: string, cause: TxError)  // a rollback pass stopped at this step

  // The entries the coordinator appends.

  function StartTxLog(): Log { Log(StartTx, "", []) }
  function StartSubTxLog(subTxID: string, args: seq<ArgData>): Log { Log(StartSubTx, subTxID, args) }
  function EndSubTxLog(subTxID: string): Log { Log(EndSubTx, subTxID, []) }
  function StartCompensateLog(subTxID: string): Log { Log(StartCompensateSubTx, subTxID, []) }
  function EndTxLog(): Log { Log(EndTx, "", []) }
  function AbortTxLog(): Log { Log(AbortTx, "", []) }

  /** What every registered callable returns: a leading nil or error, then anything. */
  predicate LeadsWithError(result: seq<Ret>) {
    |result| > 0 && (result[0].NilError? || result[0].ErrorValue?)
  }

  /** The results of a call of a registered callable. */
  type Results = r: seq<Ret> | LeadsWithError(r) witness [NilError]

  /**
   * getErrorFrom: the leading result is the error, nil meaning success.
   * Go panics when there is no result or the leading one is not an error.
   */
  function ErrorFrom(result: Results): (e: Option<string>)
    ensures e.None? <==> result[0].NilError?
    ensures e.Some? ==> e.value == result[0].message
  {
    if result[0].NilError? then None else Some(result[0].message)
  }


  // --- What a rollback pass compensates ---

  /** Concatenation is associative. */
  lemma ConcatAssoc<T>(a: seq<T>, b: seq<T>, c: seq<T>)
    ensures a + b + c == a + (b + c)
  {
  }


  /** The StartSubTx entries of a log, in log order. */
  function Starts(s: seq<Log>): (r: seq<Log>)
    ensures |r| <= |s|
    decreases |s|
  {
    if s == [] then []
    else Starts(s[..|s| - 1]) + (if s[|s| - 1].typ == StartSubTx then [s[|s| - 1]] else [])
  }

  lemma {:induction false} StartsConcat(a: seq<Log>, b: seq<Log>)
    ensures Starts(a + b) == Starts(a) + Starts(b)
    decreases |b|
  {
    if b == [] {
      assert a + b == a;
    } else {
      var front, last := b[..|b| - 1], b[|b| - 1];
      StartsConcat(a, front);
      assert (a + b)[..|a + b| - 1] == a + front;
      assert (a + b)[|a + b| - 1] == last;
    }
  }

  /** A log without StartSubTx entries contributes nothing to Starts. */
  lemma {:induction false} StartsOfNone(s: seq<Log>)
    requires forall i :: 0 <= i < |s| ==> s[i].typ != StartSubTx
    ensures Starts(s) == []
    decreases |s|
  {
    if s != [] {
      StartsOfNone(s[..|s| - 1]);
    }
  }

  /** Starts of a log prefix grows by the next entry exactly when that entry is a StartSubTx. */
  lemma StartsStep(s: seq<Log>, i: nat)
    requires i < |s|
    ensures Starts(s[..i + 1]) == if s[i].typ == StartSubTx then Starts(s[..i]) + [s[i]] else Starts(s[..i])
  {
    assert s[..i + 1][..i] == s[..i];
    if s[i].typ != StartSubTx {
      assert Starts(s[..i]) + [] == Starts(s[..i]);
    }
  }

  /** Starts of a log splits at any position. */
  lemma StartsSplit(s: seq<Log>, k: nat)
    requires k <= |s|
    ensures Starts(s) == Starts(s[..k]) + Starts(s[k..])
  {
    assert s == s[..k] + s[k..];
    StartsConcat(s[..k], s[k..]);
  }

  /** The entries a successful compensation of each of `ps` appends, in order. */
  function Completed(ps: seq<Log>): (r: seq<Log>)
    ensures |r| == 2 * |ps|
    decreases |ps|
  {
    if ps == [] then []
    else Completed(ps[..|ps| - 1]) + [StartCompensateLog(ps[|ps| - 1].subTxID), EndSubTxLog(ps[|ps| - 1].subTxID)]
  }

  /** Step `p` has a definition and its stored arguments unmarshal. */
  predicate Compensable(saga: Saga, p: Log) {
    p.subTxID in saga.defs && Unmarshal(saga, p.args).Some?
  }

  ghost predicate AllCompensable(saga: Saga, ps: seq<Log>) {
    forall p :: p in ps ==> Compensable(saga, p)
  }

  /** The invocation of `p`'s compensate with its unmarshalled arguments. */
  function CompensateCall(saga: Saga, ctx: Context, p: Log): Call
    requires Compensable(saga, p)
  {
    Call(p.subTxID, Compensate, saga.defs[p.subTxID].compensate, ctx, Unmarshal(saga, p.args).value)
  }

  /** The invocations a successful compensation of each of `ps` makes, in order. */
  ghost function CompletedCalls(saga: Saga, ctx: Context, ps: seq<Log>): (r: seq<Call>)
    requires AllCompensable(saga, ps)
    ensures |r| == |ps|
    decreases |ps|
  {
    if ps == [] then []
    else CompletedCalls(saga, ctx, ps[..|ps| - 1]) + [CompensateCall(saga, ctx, ps[|ps| - 1])]
  }

  // --- Outcomes, as functions of what the outside world answers ---

  /** What an operation appended to the transaction's log, which callables it invoked, and what it returned. */
  datatype Outcome = Outcome(appended: seq<Log>, calls: seq<Call>, err: Option<TxError>)

  /**
   * The answers the outside world gives while one step runs or is
   * compensated: whether appending its opening entry failed, what its
   * callable returned, and whether appending its closing entry failed.
   */
  datatype Answers = Answers(openFailed: bool, result: Results, closeFailed: bool)

  /** Answers for requests that were never made. */
  const Unasked: Answers := Answers(false, [NilError], false)

  function Unanswered(n: nat): (r: seq<Answers>)
    ensures |r| == n
  {
    seq(n, _ => Unasked)
  }

  /** ExecSubTxAndGetResult, given the answers. */
  function Execution(saga: Saga, ctx: Context, subTxID: string, args: seq<Value>, ans: Answers): Outcome
  {
    if subTxID !in saga.defs then Outcome([], [], Some(NoDefinition(subTxID)))
    else if Marshal(saga, args).None? then Outcome([], [], Some(MarshalFailed))
    else
      var start := StartSubTxLog(subTxID, Marshal(saga, args).value);
      if ans.openFailed then Outcome([], [], Some(AppendFailed(start)))
      else
        var call := [Call(subTxID, Action, saga.defs[subTxID].action, ctx, args)];
        match ErrorFrom(ans.result)
        case Some(m) => Outcome([start], call, Some(ActionFailed(subTxID, m)))
        case None =>
          if ans.closeFailed then Outcome([start], call, Some(AppendFailed(EndSubTxLog(subTxID))))
          else Outcome([start, EndSubTxLog(subTxID)], call, None)
  }

  /**
   * A step's action is called at most once and only after its StartSubTx
   * entry was stored; the step succeeds exactly when it is defined, its
   * arguments marshal, both appends succeed and the action returns nil, and
   * then the log gains exactly StartSubTx and EndSubTx. An action that
   * returns an error leaves only StartSubTx behind and compensates nothing.
   */
  lemma ExecutionProperties(saga: Saga, ctx: Context, subTxID: string, args: seq<Value>, ans: Answers)
    ensures var o := Execution(saga, ctx, subTxID, args, ans);
      && |o.calls| <= 1
      && (subTxID !in saga.defs || Marshal(saga, args).None? ==> o.appended == [] && o.calls == [] && o.err.Some?)
      && (ans.openFailed ==> o.appended == [] && o.calls == [] && o.err.Some?)
      && (o.calls != [] ==>
            && subTxID in saga.defs && Marshal(saga, args).Some?
            && o.calls == [Call(subTxID, Action, saga.defs[subTxID].action, ctx, args)]
            && o.appended[0] == StartSubTxLog(subTxID, Marshal(saga, args).value))
      && (o.err == None <==>
            && subTxID in saga.defs && Marshal(saga, args).Some?
            && !ans.openFailed && ans.result[0].NilError? && !ans.closeFailed)
      && (o.err == None ==> o.appended == [StartSubTxLog(subTxID, Marshal(saga, args).value), EndSubTxLog(subTxID)])
      && (ans.result[0].ErrorValue? && o.calls != [] ==>
            && o.appended == [StartSubTxLog(subTxID, Marshal(saga, args).value)]
            && o.err == Some(ActionFailed(subTxID, ans.result[0].message)))
  {
  }

  /** CompensateSubTx of the entry `p`, given the answers. */
  function Compensation(saga: Saga, ctx: Context, p: Log, ans: Answers): Outcome
  {
    var sc := StartCompensateLog(p.subTxID);
    if ans.openFailed then Outcome([], [], Some(AppendFailed(sc)))
    else if p.subTxID !in saga.defs then Outcome([sc], [], Some(NoDefinition(p.subTxID)))
    else if Unmarshal(saga, p.args).None? then Outcome([sc], [], Some(UnmarshalFailed))
    else
      var call := [CompensateCall(saga, ctx, p)];
      match ErrorFrom(ans.result)
      case Some(m) => Outcome([sc], call, Some(CompensationFailed(p.subTxID, m)))
      case None =>
        if ans.closeFailed then Outcome([sc], call, Some(AppendFailed(EndSubTxLog(p.subTxID))))
        else Outcome([sc, EndSubTxLog(p.subTxID)], call, None)
  }

  /** A compensation never appends a StartSubTx entry. */
  lemma CompensationAddsNoStarts(saga: Saga, ctx: Context, p: Log, ans: Answers)
    ensures Starts(Compensation(saga, ctx, p, ans).appended) == []
  {
    StartsOfNone(Compensation(saga, ctx, p, ans).appended);
  }

  /**
   * A compensation succeeds exactly when the step is defined, its stored
   * arguments unmarshal, both appends succeed and the compensate returns
   * nil; it then appends StartCompensateSubTx and an entry of kind EndSubTx
   * (not EndCompensateSubTx) and calls the compensate once.
   */
  lemma CompensationSucceeds(saga: Saga, ctx: Context, p: Log, ans: Answers)
    ensures Compensation(saga, ctx, p, ans).err == None <==>
      Compensable(saga, p) && !ans.openFailed && ans.result[0].NilError? && !ans.closeFailed
    ensures Compensation(saga, ctx, p, ans).err == None ==>
      && Compensation(saga, ctx, p, ans).appended == [StartCompensateLog(p.subTxID), EndSubTxLog(p.subTxID)]
      && Compensation(saga, ctx, p, ans).calls == [CompensateCall(saga, ctx, p)]
      && Compensation(saga, ctx, p, ans).appended[1].typ == 3 != EndCompensateSubTx
  {
  }

  /**
   * StartCompensateSubTx is stored before anything else is tried, so even a
   * step without definition or with arguments that do not unmarshal leaves
   * that entry, and the compensate is called at most once, after it.
   */
  lemma CompensationStartsFirst(saga: Saga, ctx: Context, p: Log, ans: Answers)
    ensures var o := Compensation(saga, ctx, p, ans);
      && (o.appended == [] <==> ans.openFailed)
      && (o.appended != [] ==> o.appended[0] == StartCompensateLog(p.subTxID))
      && (o.calls != [] ==> Compensable(saga, p) && o.calls == [CompensateCall(saga, ctx, p)] && o.appended != [])
      && (o.err.Some? ==> o.appended == [] || o.appended == [StartCompensateLog(p.subTxID)])
  {
  }

  /**
   * The loop of `rollback`: the compensations of `ps` in order, stopping at
   * the first one that fails with its error wrapped.
   */
  function CompensateAll(saga: Saga, ctx: Context, ps: seq<Log>, ans: seq<Answers>): Outcome
    requires |ans| == |ps|
    decreases |ps|
  {
    if ps == [] then Outcome([], [], None)
    else
      var r := CompensateAll(saga, ctx, ps[..|ps| - 1], ans[..|ans| - 1]);
      if r.err.Some? then r
      else
        var p := ps[|ps| - 1];
        var o := Compensation(saga, ctx, p, ans[|ans| - 1]);
        Outcome(r.appended + o.appended, r.calls + o.calls,
                if o.err.Some? then Some(CouldNotCompensate(p.subTxID, o.err.value)) else None)
  }

  /** Compensating never adds a started step. */
  lemma {:induction false} CompensateAllAddsNoStarts(saga: Saga, ctx: Context, ps: seq<Log>, ans: seq<Answers>)
    requires |ans| == |ps|
    ensures Starts(CompensateAll(saga, ctx, ps, ans).appended) == []
    decreases |ps|
  {
    if ps != [] {
      var front, fans := ps[..|ps| - 1], ans[..|ans| - 1];
      CompensateAllAddsNoStarts(saga, ctx, front, fans);
      var r := CompensateAll(saga, ctx, front, fans);
      if r.err.None? {
        var o := Compensation(saga, ctx, ps[|ps| - 1], ans[|ans| - 1]);
        CompensationAddsNoStarts(saga, ctx, ps[|ps| - 1], ans[|ans| - 1]);
        StartsConcat(r.appended, o.appended);
      }
    }
  }

  /**
   * Compensating everything successfully appends exactly the Completed
   * entries and makes exactly the compensate calls of `ps`, in order.
   */
  lemma {:induction false} CompensateAllSucceeds(saga: Saga, ctx: Context, ps: seq<Log>, ans: seq<Answers>)
    requires |ans| == |ps|
    ensures CompensateAll(saga, ctx, ps, ans).err == None ==>
      && AllCompensable(saga, ps)
      && CompensateAll(saga, ctx, ps, ans).appended == Completed(ps)
      && CompensateAll(saga, ctx, ps, ans).calls == CompletedCalls(saga, ctx, ps)
    decreases |ps|
  {
    if ps != [] && CompensateAll(saga, ctx, ps, ans).err == None {
      var front, fans, p := ps[..|ps| - 1], ans[..|ans| - 1], ps[|ps| - 1];
      CompensateAllSucceeds(saga, ctx, front, fans);
      CompensationSucceeds(saga, ctx, p, ans[|ans| - 1]);
      assert ps == front + [p];
    }
  }

  /** Once a compensation has failed, the later steps are never compensated. */
  lemma {:induction false} FailureIsFinal(saga: Saga, ctx: Context, ps: seq<Log>, ans: seq<Answers>, k: nat)
    requires |ans| == |ps|
    requires k <= |ps|
    requires CompensateAll(saga, ctx, ps[..k], ans[..k]).err.Some?
    ensures CompensateAll(saga, ctx, ps, ans) == CompensateAll(saga, ctx, ps[..k], ans[..k])
    decreases |ps|
  {
    if k < |ps| {
      var front, fans := ps[..|ps| - 1], ans[..|ans| - 1];
      assert front[..k] == ps[..k] && fans[..k] == ans[..k];
      FailureIsFinal(saga, ctx, front, fans, k);
    } else {
      assert ps[..k] == ps && ans[..k] == ans;
    }
  }

  /** One more compensation after a run of successful ones. */
  lemma CompensateAllStep(saga: Saga, ctx: Context, ps: seq<Log>, ans: seq<Answers>, p: Log, a: Answers)
    requires |ans| == |ps| && CompensateAll(saga, ctx, ps, ans).err == None
    ensures CompensateAll(saga, ctx, ps + [p], ans + [a]) ==
      var r, o := CompensateAll(saga, ctx, ps, ans), Compensation(saga, ctx, p, a);
      Outcome(r.appended + o.appended, r.calls + o.calls,
              if o.err.Some? then Some(CouldNotCompensate(p.subTxID, o.err.value)) else None)
  {
    assert (ps + [p])[..|ps|] == ps;
    assert (ans + [a])[..|ans|] == ans;
  }

  /** CompensateAllStep, in terms of the outcome so far and the step's own outcome. */
  lemma CompensateAllStepOutcome(saga: Saga, ctx: Context, ps: seq<Log>, ans: seq<Answers>, p: Log, a: Answers,
                                 appended: seq<Log>, calls: seq<Call>, app: seq<Log>, cs: seq<Call>, e: Option<TxError>)
    requires |ans| == |ps| && CompensateAll(saga, ctx, ps, ans) == Outcome(appended, calls, None)
    requires Outcome(app, cs, e) == Compensation(saga, ctx, p, a)
    ensures CompensateAll(saga, ctx, ps + [p], ans + [a]) ==
      Outcome(appended + app, calls + cs, if e.Some? then Some(CouldNotCompensate(p.subTxID, e.value)) else None)
  {
    CompensateAllStep(saga, ctx, ps, ans, p, a);
  }

  /**
   * After a failure among the first `k` steps, any answers for the rest
   * give the same outcome: the answers of the first `k` steps padded with
   * answers that are never asked for.
   */
  lemma PadAfterFailure(saga: Saga, ctx: Context, ps: seq<Log>, prefix: seq<Answers>) returns (padded: seq<Answers>)
    requires |prefix| <= |ps|
    requires CompensateAll(saga, ctx, ps[..|prefix|], prefix).err.Some?
    ensures |padded| == |ps|
    ensures CompensateAll(saga, ctx, ps, padded) == CompensateAll(saga, ctx, ps[..|prefix|], prefix)
  {
    padded := prefix + Unanswered(|ps| - |prefix|);
    assert padded[..|prefix|] == prefix;
    FailureIsFinal(saga, ctx, ps, padded, |prefix|);
  }

  /**
   * When the compensation of the StartSubTx entry at position `i` of a log
   * fails, the answers so far, padded, give the outcome of compensating
   * every started step of the log.
   */
  lemma PadAt(saga: Saga, ctx: Context, logs: seq<Log>, i: nat, started: seq<Log>, prefix: seq<Answers>)
    returns (padded: seq<Answers>)
    requires i < |logs| && logs[i].typ == StartSubTx
    requires started == Starts(logs[..i]) + [logs[i]]
    requires |prefix| == |started|
    requires CompensateAll(saga, ctx, started, prefix).err.Some?
    ensures |padded| == |Starts(logs)|
    ensures CompensateAll(saga, ctx, Starts(logs), padded) == CompensateAll(saga, ctx, started, prefix)
  {
    StartsStep(logs, i);
    StartsSplit(logs, i + 1);
    assert Starts(logs)[..|prefix|] == started;
    padded := PadAfterFailure(saga, ctx, Starts(logs), prefix);
  }

  /**
   * A pass that fails names the first step whose compensation failed: every
   * step before it was compensated successfully, and nothing after it was
   * tried.
   */
  lemma {:induction false} CompensateAllStopsAtFirstFailure(saga: Saga, ctx: Context, ps: seq<Log>, ans: seq<Answers>)
    returns (k: nat)
    requires |ans| == |ps|
    requires CompensateAll(saga, ctx, ps, ans).err.Some?
    ensures k < |ps|
    ensures AllCompensable(saga, ps[..k])
    ensures CompensateAll(saga, ctx, ps[..k], ans[..k]) == Outcome(Completed(ps[..k]), CompletedCalls(saga, ctx, ps[..k]), None)
    ensures Compensation(saga, ctx, ps[k], ans[k]).err.Some?
    ensures CompensateAll(saga, ctx, ps, ans) ==
      Outcome(Completed(ps[..k]) + Compensation(saga, ctx, ps[k], ans[k]).appended,
              CompletedCalls(saga, ctx, ps[..k]) + Compensation(saga, ctx, ps[k], ans[k]).calls,
              Some(CouldNotCompensate(ps[k].subTxID, Compensation(saga, ctx, ps[k], ans[k]).err.value)))
    decreases |ps|
  {
    var front, fans := ps[..|ps| - 1], ans[..|ans| - 1];
    if CompensateAll(saga, ctx, front, fans).err.Some? {
      k := CompensateAllStopsAtFirstFailure(saga, ctx, front, fans);
      assert front[..k] == ps[..k] && fans[..k] == ans[..k];
    } else {
      k := |ps| - 1;
      assert ps[..k] == front && ans[..k] == fans;
      CompensateAllSucceeds(saga, ctx, front, fans);
    }
  }

  /** The answers to one rollback pass: the read, the AbortTx append, and each compensation. */
  datatype PassAnswers = PassAnswers(readFailed: bool, abortFailed: bool, compensations: seq<Answers>)

  /** `pa` answers every compensation a pass over `s` may make. */
  ghost predicate Fits(s: seq<Log>, pa: PassAnswers) {
    |pa.compensations| == |Starts(s)|
  }

  /** `rollback` over the log `s` as it was read, given the answers. */
  function PassOutcome(saga: Saga, ctx: Context, s: seq<Log>, pa: PassAnswers): Outcome
    requires Fits(s, pa)
  {
    if pa.readFailed then Outcome([], [], Some(ReadLogsFailed))
    else if pa.abortFailed then Outcome([], [], Some(AppendFailed(AbortTxLog())))
    else
      var r := CompensateAll(saga, ctx, Starts(s), pa.compensations);
      Outcome([AbortTxLog()] + r.appended, r.calls, r.err)
  }

  /** No pass adds a started step to the log it read. */
  lemma PassKeepsStarts(saga: Saga, ctx: Context, s: seq<Log>, pa: PassAnswers)
    requires Fits(s, pa)
    ensures Starts(s + PassOutcome(saga, ctx, s, pa).appended) == Starts(s)
  {
    var o := PassOutcome(saga, ctx, s, pa);
    if !pa.readFailed && !pa.abortFailed {
      var r := CompensateAll(saga, ctx, Starts(s), pa.compensations);
      CompensateAllAddsNoStarts(saga, ctx, Starts(s), pa.compensations);
      StartsOfNone([AbortTxLog()]);
      StartsConcat([AbortTxLog()], r.appended);
    }
    StartsConcat(s, o.appended);
  }

  /**
   * A pass appends nothing or starts with AbortTx, never adds a started
   * step, and when it succeeds it has compensated every started step of the
   * log it read, whether or not that step ended, in log order.
   */
  lemma PassProperties(saga: Saga, ctx: Context, s: seq<Log>, pa: PassAnswers)
    requires Fits(s, pa)
    ensures var o := PassOutcome(saga, ctx, s, pa);
      && (o.appended == [] <==> pa.readFailed || pa.abortFailed)
      && (o.appended != [] ==> o.appended[0] == AbortTxLog())
      && Starts(s + o.appended) == Starts(s)
      && (o.err == None ==>
            && AllCompensable(saga, Starts(s))
            && o.appended == [AbortTxLog()] + Completed(Starts(s))
            && o.calls == CompletedCalls(saga, ctx, Starts(s)))
  {
    PassKeepsStarts(saga, ctx, s, pa);
    if !pa.readFailed && !pa.abortFailed {
      CompensateAllSucceeds(saga, ctx, Starts(s), pa.compensations);
    }
  }

  /**
   * The log of TestSagaError's scenario (example_test.go:84-124): "debit" ran to its
   * EndSubTx, then the action of "credit" failed after its StartSubTx.
   * Both steps count as started, "credit" although it never ended.
   */
  lemma CreditFailureStarts(debitArgs: seq<ArgData>, creditArgs: seq<ArgData>)
    ensures Starts([StartSubTxLog("debit", debitArgs), EndSubTxLog("debit"), StartSubTxLog("credit", creditArgs)])
         == [StartSubTxLog("debit", debitArgs), StartSubTxLog("credit", creditArgs)]
  {
    var d, c := StartSubTxLog("debit", debitArgs), StartSubTxLog("credit", creditArgs);
    var e := EndSubTxLog("debit");
    StartsOne(d);
    StartsOne(e);
    StartsOne(c);
    StartsConcat([d], [e]);
    assert [d] + [e] == [d, e];
    StartsConcat([d, e], [c]);
    assert [d, e] + [c] == [d, e, c];
  }

  lemma StartsOne(x: Log)
    ensures Starts([x]) == if x.typ == StartSubTx then [x] else []
  {
    assert [x][..0] == [];
  }

  /**
   * A successful rollback pass over that log compensates both steps in log
   * order: AbortTx, then StartCompensateSubTx and EndSubTx for "debit", then
   * the same for "credit".
   */
  lemma CreditFailureScenario(saga: Saga, ctx: Context, debitArgs: seq<ArgData>, creditArgs: seq<ArgData>, pa: PassAnswers)
    requires Fits([StartSubTxLog("debit", debitArgs), EndSubTxLog("debit"), StartSubTxLog("credit", creditArgs)], pa)
    ensures var s := [StartSubTxLog("debit", debitArgs), EndSubTxLog("debit"), StartSubTxLog("credit", creditArgs)];
      PassOutcome(saga, ctx, s, pa).err == None ==>
        PassOutcome(saga, ctx, s, pa).appended ==
          [AbortTxLog(), StartCompensateLog("debit"), EndSubTxLog("debit"),
           StartCompensateLog("credit"), EndSubTxLog("credit")]
  {
    var d, c := StartSubTxLog("debit", debitArgs), StartSubTxLog("credit", creditArgs);
    var s := [d, EndSubTxLog("debit"), c];
    CreditFailureStarts(debitArgs, creditArgs);
    PassProperties(saga, ctx, s, pa);
    CompletedStep([], d);
    assert [] + [d] == [d];
    CompletedStep([d], c);
    assert [d] + [c] == [d, c];
  }

  /** Completed grows by the two entries of one more step. */
  lemma CompletedStep(ps: seq<Log>, p: Log)
    ensures Completed(ps + [p]) == Completed(ps) + [StartCompensateLog(p.subTxID), EndSubTxLog(p.subTxID)]
  {
    assert (ps + [p])[..|ps|] == ps;
  }

  /** A record of one rollback pass: the log it read, the answers it got, its outcome. */
  datatype Pass = Pass(snapshot: seq<Log>, answers: PassAnswers, outcome: Outcome)

  /** `p` records what a pass over its snapshot does with its answers. */
  ghost predicate IsPass(saga: Saga, ctx: Context, p: Pass) {
    Fits(p.snapshot, p.answers) && p.outcome == PassOutcome(saga, ctx, p.snapshot, p.answers)
  }

  /** A recorded pass adds no started step to the log it read. */
  lemma RecordedPassKeepsStarts(saga: Saga, ctx: Context, p: Pass)
    requires IsPass(saga, ctx, p)
    ensures Starts(p.snapshot + p.outcome.appended) == Starts(p.snapshot)
  {
    PassKeepsStarts(saga, ctx, p.snapshot, p.answers);
  }

  ghost function AllAppended(ps: seq<Pass>): seq<Log>
    decreases |ps|
  {
    if ps == [] then [] else AllAppended(ps[..|ps| - 1]) + ps[|ps| - 1].outcome.appended
  }

  ghost function AllCalls(ps: seq<Pass>): seq<Call>
    decreases |ps|
  {
    if ps == [] then [] else AllCalls(ps[..|ps| - 1]) + ps[|ps| - 1].outcome.calls
  }

  /** Every pass of `ps` failed. */
  ghost predicate AllFailed(ps: seq<Pass>)
    decreases |ps|
  {
    ps == [] || (AllFailed(ps[..|ps| - 1]) && ps[|ps| - 1].outcome.err.Some?)
  }

  lemma AllFailedExtend(ps: seq<Pass>, p: Pass)
    requires AllFailed(ps) && p.outcome.err.Some?
    ensures AllFailed(ps + [p])
  {
    assert (ps + [p])[..|ps|] == ps;
  }

  lemma {:induction false} AllFailedAt(ps: seq<Pass>, i: nat)
    requires AllFailed(ps) && i < |ps|
    ensures ps[i].outcome.err.Some?
    decreases |ps|
  {
    if i < |ps| - 1 {
      AllFailedAt(ps[..|ps| - 1], i);
    }
  }

  /**
   * Rollback retries a pass only after the previous one failed: when every
   * pass before the last failed, each of them returned an error.
   */
  lemma EveryEarlierPassFailed(ps: seq<Pass>)
    requires ps != [] && AllFailed(ps[..|ps| - 1])
    ensures forall i :: 0 <= i < |ps| - 1 ==> ps[i].outcome.err.Some?
  {
    forall i | 0 <= i < |ps| - 1
      ensures ps[i].outcome.err.Some?
    {
      AllFailedAt(ps[..|ps| - 1], i);
    }
  }

  /** Consecutive passes starting from the log `start`: each reads what the previous ones left. */
  ghost predicate Passes(saga: Saga, ctx: Context, start: seq<Log>, ps: seq<Pass>)
    decreases |ps|, 1
  {
    ps == [] || LastPassFollows(saga, ctx, start, ps)
  }

  /** The passes before the last are consecutive, and the last read what they left. */
  ghost predicate LastPassFollows(saga: Saga, ctx: Context, start: seq<Log>, ps: seq<Pass>)
    requires ps != []
    decreases |ps|, 0
  {
    var front, last := ps[..|ps| - 1], ps[|ps| - 1];
    && Passes(saga, ctx, start, front)
    && last.snapshot == start + AllAppended(front)
    && IsPass(saga, ctx, last)
  }

  /** The last of a run of passes read what the earlier ones left. */
  lemma LastPass(saga: Saga, ctx: Context, start: seq<Log>, ps: seq<Pass>)
    requires ps != [] && Passes(saga, ctx, start, ps)
    ensures Passes(saga, ctx, start, ps[..|ps| - 1])
    ensures ps[|ps| - 1].snapshot == start + AllAppended(ps[..|ps| - 1])
    ensures IsPass(saga, ctx, ps[|ps| - 1])
    ensures start + AllAppended(ps) == ps[|ps| - 1].snapshot + ps[|ps| - 1].outcome.appended
  {
    assert LastPassFollows(saga, ctx, start, ps);
    var front, last := ps[..|ps| - 1], ps[|ps| - 1];
    assert AllAppended(ps) == AllAppended(front) + last.outcome.appended;
    ConcatAssoc(start, AllAppended(front), last.outcome.appended);
  }

  /** The last of a run of passes adds no started step to what the earlier ones left. */
  lemma LastPassKeepsStarts(saga: Saga, ctx: Context, start: seq<Log>, ps: seq<Pass>)
    requires ps != [] && Passes(saga, ctx, start, ps)
    ensures Passes(saga, ctx, start, ps[..|ps| - 1])
    ensures Starts(start + AllAppended(ps)) == Starts(start + AllAppended(ps[..|ps| - 1]))
  {
    LastPass(saga, ctx, start, ps);
    RecordedPassKeepsStarts(saga, ctx, ps[|ps| - 1]);
  }

  /**
   * However many passes ran, none added a started step, so every pass read
   * the started steps the log began with, and retrying compensates the
   * same steps again.
   */
  lemma {:induction false} PassesKeepStarts(saga: Saga, ctx: Context, start: seq<Log>, ps: seq<Pass>)
    requires Passes(saga, ctx, start, ps)
    ensures Starts(start + AllAppended(ps)) == Starts(start)
    ensures forall i :: 0 <= i < |ps| ==> Starts(ps[i].snapshot) == Starts(start)
    decreases |ps|
  {
    if ps == [] {
      assert start + AllAppended(ps) == start;
    } else {
      var front := ps[..|ps| - 1];
      LastPassKeepsStarts(saga, ctx, start, ps);
      PassesKeepStarts(saga, ctx, start, front);
      forall i | 0 <= i < |front|
        ensures Starts(ps[i].snapshot) == Starts(start)
      {
        assert ps[i] == front[i];
      }
    }
  }

  /** Passes extended with one more pass that read the log the earlier ones left. */
  lemma PassesExtend(saga: Saga, ctx: Context, start: seq<Log>, ps: seq<Pass>, p: Pass)
    requires Passes(saga, ctx, start, ps)
    requires p.snapshot == start + AllAppended(ps)
    requires IsPass(saga, ctx, p)
    ensures (ps + [p])[..|ps|] == ps
    ensures Passes(saga, ctx, start, ps + [p])
    ensures AllAppended(ps + [p]) == AllAppended(ps) + p.outcome.appended
    ensures AllCalls(ps + [p]) == AllCalls(ps) + p.outcome.calls
  {
    assert (ps + [p])[..|ps|] == ps;
    assert LastPassFollows(saga, ctx, start, ps + [p]);
  }

  // --- The collaborators ---

  /**
   * The `Storage` dependency. A call may fail; a failed call changes
   * nothing, and a successful one reads and appends as the in-memory store
   * does (storage/memory/cache.go), plus the read `GetTxLogs`.
   */
  class Storage {
    var logs: map<string, seq<Log>>

    ghost predicate Valid()
      reads this
    {
      Memory.NonEmptyLists(logs)
    }

    constructor ()
      ensures Valid() && logs == map[]
    {
      logs := map[];
    }

    method TxIDAlreadyExists(id: string) returns (found: bool, failed: bool)
      requires Valid()
      ensures !failed ==> (found <==> id in logs)
      ensures !failed ==> (found <==> |Memory.Lookup(logs, id)| > 0)
    {
      failed := *;
      found := !failed && id in logs;
    }

    method AppendLog(id: string, entry: Log) returns (failed: bool)
      requires Valid()
      modifies this
      ensures Valid()
      ensures logs == Memory.AppendedAll(old(logs), id, if failed then [] else [entry])
    {
      failed := *;
      if !failed {
        Memory.AppendedAllFrame(logs, id, [entry]);
        logs := Memory.AppendedAll(logs, id, [entry]);
      }
    }

    method GetTxLogs(id: string) returns (entries: seq<Log>, failed: bool)
      ensures !failed ==> entries == Memory.Lookup(logs, id)
      ensures failed ==> entries == []
    {
      failed := *;
      entries := if failed then [] else Memory.Lookup(logs, id);
    }
  }

  /**
   * Where the registered callables run (`reflect.Value.Call`): every call is
   * recorded and returns a leading nil or error, then arbitrary results.
   */
  class Host {
    var calls: seq<Call>

    constructor ()
      ensures calls == []
    {
      calls := [];
    }

    method Invoke(c: Call) returns (res: Results)
      modifies this
      ensures calls == old(calls) + [c]
    {
      calls := calls + [c];
      var returned: Results :| true;
      res := returned;
    }
  }

  // --- The coordinator ---

  class Tx {
    var ctx: Context
    const txID: string
    const saga: Saga
    const storage: Storage
    var log: Logger
    /** Not a field of the source's Tx: the code its callables run in. */
    const host: Host

    ghost predicate Valid()
      reads storage
    {
      storage.Valid()
    }

    /** This transaction's log as the storage holds it. */
    function Logs(): seq<Log>
      reads storage
    {
      Memory.Lookup(storage.logs, txID)
    }

    /** New: a transaction handle with the dummy logger. */
    constructor New(ctx: Context, sg: Saga, st: Storage, host: Host, txID: string)
      ensures this.ctx == ctx && this.saga == sg && this.storage == st && this.host == host
      ensures this.txID == txID && this.log == DummyLogger
    {
      this.ctx := ctx;
      this.saga := sg;
      this.storage := st;
      this.host := host;
      this.txID := txID;
      this.log := DummyLogger;
    }

    /** NewWithLogger: a transaction handle with the given logger. */
    constructor NewWithLogger(ctx: Context, sg: Saga, st: Storage, host: Host, txID: string, logger: Logger)
      ensures this.ctx == ctx && this.saga == sg && this.storage == st && this.host == host
      ensures this.txID == txID && this.log == logger
    {
      this.ctx := ctx;
      this.saga := sg;
      this.storage := st;
      this.host := host;
      this.txID := txID;
      this.log := logger;
    }

    /**
     * Starts the transaction. If the existence check fails nothing happens.
     * If the id is already in use, exactly one rollback pass runs first, and
     * if it fails its error is returned and no StartTx is appended.
     * Otherwise one StartTx entry is appended.
     */
    method Start() returns (err: Option<TxError>, ghost residual: seq<Pass>)
      requires Valid()
      modifies storage, host
      ensures Valid()
      ensures err == Some(ExistenceCheckFailed) ==>
        residual == [] && storage.logs == old(storage.logs) && host.calls == old(host.calls)
      ensures err != Some(ExistenceCheckFailed) ==>
        && |residual| == (if txID in old(storage.logs) then 1 else 0)
        && Passes(saga, ctx, old(Logs()), residual)
        && host.calls == old(host.calls) + AllCalls(residual)
        && if residual != [] && residual[0].outcome.err.Some? then
             && err == Some(ResidualRollbackFailed(residual[0].outcome.err.value))
             && storage.logs == Memory.AppendedAll(old(storage.logs), txID, AllAppended(residual))
           else
             || (err == None && storage.logs == Memory.AppendedAll(old(storage.logs), txID, AllAppended(residual) + [StartTxLog()]))
             || (err == Some(AppendFailed(StartTxLog())) && storage.logs == Memory.AppendedAll(old(storage.logs), txID, AllAppended(residual)))
    {
      residual := [];
      var txIDAlreadyExists, failed := storage.TxIDAlreadyExists(txID);
      if failed {
        return Some(ExistenceCheckFailed), [];
      }
      if txIDAlreadyExists {
        var e;
        e, residual := Rollback(1);
        if e.Some? {
          return Some(ResidualRollbackFailed(e.value)), residual;
        }
      } else {
        assert AllAppended(residual) == [];
      }
      ghost var before := storage.logs;
      failed := storage.AppendLog(txID, StartTxLog());
      Memory.AppendedAllConcat(old(storage.logs), txID, AllAppended(residual), if failed then [] else [StartTxLog()]);
      if failed {
        assert AllAppended(residual) + [] == AllAppended(residual);
        return Some(AppendFailed(StartTxLog())), residual;
      }
      err := None;
    }

    /** ExecSubTx: ExecSubTxAndGetResult without the results. */
    method ExecSubTx(subTxID: string, args: seq<Value>)
      returns (err: Option<TxError>, ghost ans: Answers, ghost appended: seq<Log>, ghost calls: seq<Call>)
      requires Valid()
      modifies storage, host
      ensures Valid()
      ensures Outcome(appended, calls, err) == Execution(saga, ctx, subTxID, args, ans)
      ensures storage.logs == Memory.AppendedAll(old(storage.logs), txID, appended)
      ensures host.calls == old(host.calls) + calls
    {
      var res;
      res, err, ans, appended, calls := ExecSubTxAndGetResult(subTxID, args);
    }

    /**
     * Runs one step's action between its StartSubTx and EndSubTx entries
     * (see Execution and ExecutionProperties); the results are the action's
     * when it was called, and empty otherwise.
     */
    method ExecSubTxAndGetResult(subTxID: string, args: seq<Value>)
      returns (res: seq<Ret>, err: Option<TxError>, ghost ans: Answers, ghost appended: seq<Log>, ghost calls: seq<Call>)
      requires Valid()
      modifies storage, host
      ensures Valid()
      ensures Outcome(appended, calls, err) == Execution(saga, ctx, subTxID, args, ans)
      ensures res == if calls == [] then [] else ans.result
      ensures storage.logs == Memory.AppendedAll(old(storage.logs), txID, appended)
      ensures host.calls == old(host.calls) + calls
    {
      res, ans, appended, calls := [], Unasked, [], [];
      if subTxID !in saga.defs {
        return [], Some(NoDefinition(subTxID)), Unasked, [], [];
      }
      var subTxDef := saga.defs[subTxID];
      var marshalledArgs := Marshal(saga, args);
      if marshalledArgs.None? {
        return [], Some(MarshalFailed), Unasked, [], [];
      }
      var start := StartSubTxLog(subTxID, marshalledArgs.value);
      var failed := storage.AppendLog(txID, start);
      if failed {
        return [], Some(AppendFailed(start)), Answers(true, [NilError], false), [], [];
      }
      var call := Call(subTxID, Action, subTxDef.action, ctx, args);
      res := host.Invoke(call);
      calls := [call];
      var e := ErrorFrom(res);
      if e.Some? {
        return res, Some(ActionFailed(subTxID, e.value)), Answers(false, res, false), [start], calls;
      }
      failed := storage.AppendLog(txID, EndSubTxLog(subTxID));
      ans := Answers(false, res, failed);
      Memory.AppendedAllConcat(old(storage.logs), txID, [start], if failed then [] else [EndSubTxLog(subTxID)]);
      if failed {
        assert [start] + [] == [start];
        return res, Some(AppendFailed(EndSubTxLog(subTxID))), ans, [start], calls;
      }
      assert [start] + [EndSubTxLog(subTxID)] == [start, EndSubTxLog(subTxID)];
      appended := [start, EndSubTxLog(subTxID)];
      err := None;
    }

    /** Appends one EndTx entry; removes nothing. */
    method End() returns (err: Option<TxError>)
      requires Valid()
      modifies storage
      ensures Valid()
      ensures err == None ==> storage.logs == Memory.AppendedAll(old(storage.logs), txID, [EndTxLog()])
      ensures err == None ==> Logs() == old(Logs()) + [EndTxLog()]
      ensures err.Some? ==> err == Some(AppendFailed(EndTxLog())) && storage.logs == old(storage.logs)
    {
      var failed := storage.AppendLog(txID, EndTxLog());
      if failed {
        return Some(AppendFailed(EndTxLog()));
      }
      err := None;
    }

    /**
     * Up to `tryCount` rollback passes: nil at the first pass that succeeds,
     * otherwise the error of the last pass; with `tryCount <= 0`, nil and
     * nothing done. No pass adds a started step, so every pass compensates
     * the steps the log held at the start.
     */
    method Rollback(tryCount: int) returns (err: Option<TxError>, ghost passes: seq<Pass>)
      requires Valid()
      modifies storage, host
      ensures Valid()
      ensures tryCount <= 0 ==> err == None && passes == []
      ensures tryCount > 0 ==> 1 <= |passes| <= tryCount
      ensures passes != [] ==> AllFailed(passes[..|passes| - 1])
      ensures passes != [] ==> err == passes[|passes| - 1].outcome.err
      ensures err.Some? ==> |passes| == tryCount
      ensures Passes(saga, ctx, old(Logs()), passes)
      ensures storage.logs == Memory.AppendedAll(old(storage.logs), txID, AllAppended(passes))
      ensures host.calls == old(host.calls) + AllCalls(passes)
      ensures Starts(Logs()) == Starts(old(Logs()))
    {
      var n := tryCount;
      passes := [];
      err := None;
      ghost var logs0, calls0, start := storage.logs, host.calls, Logs();
      while n > 0
        invariant tryCount > 0 ==> 0 <= n && |passes| + n == tryCount
        invariant tryCount <= 0 ==> n == tryCount && passes == []
        invariant AllFailed(passes)
        invariant passes != [] ==> err == passes[|passes| - 1].outcome.err
        invariant passes == [] ==> err == None
        invariant Valid()
        invariant Passes(saga, ctx, start, passes)
        invariant storage.logs == Memory.AppendedAll(logs0, txID, AllAppended(passes))
        invariant host.calls == calls0 + AllCalls(passes)
      {
        var e;
        ghost var before := passes;
        e, passes := NextPass(logs0, calls0, start, passes);
        err := e;
        if e.None? {
          assert passes[..|passes| - 1] == before;
          break;
        }
        n := n - 1;
      }
      PassesKeepStarts(saga, ctx, start, passes);
    }

    /** One more rollback pass after `before`, recorded at the end of `after`. */
    method NextPass(ghost logs0: map<string, seq<Log>>, ghost calls0: seq<Call>, ghost start: seq<Log>, ghost before: seq<Pass>)
      returns (err: Option<TxError>, ghost after: seq<Pass>)
      requires Valid()
      requires start == Memory.Lookup(logs0, txID)
      requires Passes(saga, ctx, start, before)
      requires storage.logs == Memory.AppendedAll(logs0, txID, AllAppended(before))
      requires host.calls == calls0 + AllCalls(before)
      modifies storage, host
      ensures Valid()
      ensures |after| == |before| + 1 && after[..|before|] == before
      ensures err == after[|before|].outcome.err
      ensures AllFailed(before) && err.Some? ==> AllFailed(after)
      ensures Passes(saga, ctx, start, after)
      ensures storage.logs == Memory.AppendedAll(logs0, txID, AllAppended(after))
      ensures host.calls == calls0 + AllCalls(after)
    {
      ghost var snapshot := Logs();
      ghost var pa, a, c;
      err, pa, a, c := RollbackPass();
      ghost var p := Pass(snapshot, pa, Outcome(a, c, err));
      PassesExtend(saga, ctx, start, before, p);
      Memory.AppendedAllConcat(logs0, txID, AllAppended(before), a);
      ConcatAssoc(calls0, AllCalls(before), c);
      if AllFailed(before) && err.Some? {
        AllFailedExtend(before, p);
      }
      after := before + [p];
    }

    /**
     * rollback: one pass (see PassOutcome and PassProperties). Reads the
     * log, appends AbortTx, then compensates the StartSubTx entries of what
     * it read.
     */
    method RollbackPass() returns (err: Option<TxError>, ghost pa: PassAnswers, ghost appended: seq<Log>, ghost calls: seq<Call>)
      requires Valid()
      modifies storage, host
      ensures Valid()
      ensures Fits(old(Logs()), pa)
      ensures Outcome(appended, calls, err) == PassOutcome(saga, ctx, old(Logs()), pa)
      ensures storage.logs == Memory.AppendedAll(old(storage.logs), txID, appended)
      ensures host.calls == old(host.calls) + calls
    {
      ghost var none := Unanswered(|Starts(old(Logs()))|);
      var logs, failed := storage.GetTxLogs(txID);
      if failed {
        return Some(ReadLogsFailed), PassAnswers(true, false, none), [], [];
      }
      failed := storage.AppendLog(txID, AbortTxLog());
      if failed {
        return Some(AppendFailed(AbortTxLog())), PassAnswers(false, true, none), [], [];
      }
      var e, ans, a, c := CompensateStarted(logs);
      Memory.AppendedAllConcat(old(storage.logs), txID, [AbortTxLog()], a);
      err, pa, appended, calls := e, PassAnswers(false, false, ans), [AbortTxLog()] + a, c;
    }

    /**
     * The loop of `rollback` (see CompensateAll): compensates the
     * StartSubTx entries of `logs` in order and stops at the first failure.
     */
    method CompensateStarted(logs: seq<Log>)
      returns (err: Option<TxError>, ghost answers: seq<Answers>, ghost appended: seq<Log>, ghost calls: seq<Call>)
      requires Valid()
      modifies storage, host
      ensures Valid()
      ensures |answers| == |Starts(logs)|
      ensures Outcome(appended, calls, err) == CompensateAll(saga, ctx, Starts(logs), answers)
      ensures storage.logs == Memory.AppendedAll(old(storage.logs), txID, appended)
      ensures host.calls == old(host.calls) + calls
    {
      answers, appended, calls := [], [], [];
      var i := 0;
      ghost var started: seq<Log> := [];
      assert logs[..0] == [];
      while i < |logs|
        invariant 0 <= i <= |logs|
        invariant Valid()
        invariant started == Starts(logs[..i])
        invariant |answers| == |started|
        invariant CompensateAll(saga, ctx, started, answers) == Outcome(appended, calls, None)
        invariant storage.logs == Memory.AppendedAll(old(storage.logs), txID, appended)
        invariant host.calls == old(host.calls) + calls
      {
        var e;
        e, started, answers, appended, calls :=
          CompensateEntry(old(storage.logs), old(host.calls), logs, i, started, answers, appended, calls);
        if e.Some? {
          return e, answers, appended, calls;
        }
        i := i + 1;
      }
      assert logs[..i] == logs;
      err := None;
    }

    /**
     * One turn of the loop of CompensateStarted: compensates the entry at
     * position `i` when it starts a step, and skips it otherwise.
     */
    method CompensateEntry(ghost logs0: map<string, seq<Log>>, ghost calls0: seq<Call>, logs: seq<Log>, i: nat,
                           ghost started: seq<Log>, ghost answers: seq<Answers>, ghost appended: seq<Log>, ghost calls: seq<Call>)
      returns (err: Option<TxError>, ghost started': seq<Log>, ghost answers': seq<Answers>, ghost appended': seq<Log>, ghost calls': seq<Call>)
      requires Valid() && i < |logs|
      requires started == Starts(logs[..i]) && |answers| == |started|
      requires CompensateAll(saga, ctx, started, answers) == Outcome(appended, calls, None)
      requires storage.logs == Memory.AppendedAll(logs0, txID, appended)
      requires host.calls == calls0 + calls
      modifies storage, host
      ensures Valid()
      ensures storage.logs == Memory.AppendedAll(logs0, txID, appended')
      ensures host.calls == calls0 + calls'
      ensures err.None? ==> && started' == Starts(logs[..i + 1]) && |answers'| == |started'|
                            && CompensateAll(saga, ctx, started', answers') == Outcome(appended', calls', None)
      ensures err.Some? ==> && |answers'| == |Starts(logs)|
                            && Outcome(appended', calls', err) == CompensateAll(saga, ctx, Starts(logs), answers')
    {
      var logData := logs[i];
      StartsStep(logs, i);
      started', answers', appended', calls' := started, answers, appended, calls;
      err := None;
      if logData.typ == StartSubTx {
        var e, ans, a, c := CompensateSubTx(logData);
        Memory.AppendedAllConcat(logs0, txID, appended, a);
        ConcatAssoc(calls0, calls, c);
        CompensateAllStepOutcome(saga, ctx, started, answers, logData, ans, appended, calls, a, c, e);
        started', answers', appended', calls' := started + [logData], answers + [ans], appended + a, calls + c;
        if e.Some? {
          err := Some(CouldNotCompensate(logData.subTxID, e.value));
          answers' := PadAt(saga, ctx, logs, i, started', answers');
        }
      }
    }

    method SetLogger(l: Logger)
      modifies this
      ensures log == l && ctx == old(ctx)
    {
      log := l;
    }

    method SetContext(c: Context)
      modifies this
      ensures ctx == c && log == old(log)
    {
      ctx := c;
    }

    /** Asks the storage whether this transaction's log has any entry. */
    method IsTxIDAlreadyInUse() returns (found: bool, failed: bool)
      requires Valid()
      ensures !failed ==> (found <==> |Logs()| > 0)
    {
      found, failed := storage.TxIDAlreadyExists(txID);
    }

    /** Compensates the step of the StartSubTx entry `logData` (see Compensation). */
    method CompensateSubTx(logData: Log)
      returns (err: Option<TxError>, ghost ans: Answers, ghost appended: seq<Log>, ghost calls: seq<Call>)
      requires Valid()
      modifies storage, host
      ensures Valid()
      ensures Outcome(appended, calls, err) == Compensation(saga, ctx, logData, ans)
      ensures storage.logs == Memory.AppendedAll(old(storage.logs), txID, appended)
      ensures host.calls == old(host.calls) + calls
    {
      var sc := StartCompensateLog(logData.subTxID);
      var failed := storage.AppendLog(txID, sc);
      if failed {
        return Some(AppendFailed(sc)), Answers(true, [NilError], false), [], [];
      }
      appended, calls, ans := [sc], [], Unasked;
      if logData.subTxID !in saga.defs {
        return Some(NoDefinition(logData.subTxID)), ans, appended, calls;
      }
      var subTxDef := saga.defs[logData.subTxID];
      var args := Unmarshal(saga, logData.args);
      if args.None? {
        return Some(UnmarshalFailed), ans, appended, calls;
      }
      var call := Call(logData.subTxID, Compensate, subTxDef.compensate, ctx, args.value);
      var res := host.Invoke(call);
      calls := [call];
      var e := ErrorFrom(res);
      if e.Some? {
        return Some(CompensationFailed(logData.subTxID, e.value)), Answers(false, res, false), appended, calls;
      }
      var end := EndSubTxLog(logData.subTxID);
      failed := storage.AppendLog(txID, end);
      ans := Answers(false, res, failed);
      Memory.AppendedAllConcat(old(storage.logs), txID, [sc], if failed then [] else [end]);
      if failed {
        assert [sc] + [] == [sc];
        return Some(AppendFailed(end)), ans, appended, calls;
      }
      assert [sc] + [end] == [sc, end];
      appended := [sc, end];
      err := None;
    }
  }
}
