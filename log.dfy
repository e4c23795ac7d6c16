/**
 * The log data model of log/log.go: the kind of a log entry and the
 * record that the coordinator appends to a transaction's log.
 * The JSON encoding is not modelled: storage holds `Log` values directly.
 */
module Log {

  /** Go's `type Type int`. The kinds below are the only named values. */
  newtype Type = int

  const StartTx: Type := 1
  const StartSubTx: Type := 2
  const EndSubTx: Type := 3
  const StartCompensateSubTx: Type := 4
  const EndCompensateSubTx: Type := 5
  const EndTx: Type := 6
  const AbortTx: Type := 7

  /** The named kinds, in declaration order. */
  const Kinds: seq<Type> :=
    [StartTx, StartSubTx, EndSubTx, StartCompensateSubTx, EndCompensateSubTx, EndTx, AbortTx]

  predicate IsNamedKind(t: Type) {
    t in Kinds
  }

  /** The declaration uses `iota + 1`: the i-th kind has code i + 1. */
  lemma KindCodes()
    ensures |Kinds| == 7
    ensures forall i :: 0 <= i < |Kinds| ==> Kinds[i] == (i + 1) as Type
  {
  }

  /** Codes increase in declaration order, so they are pairwise distinct. */
  lemma KindsIncrease(i: int, j: int)
    requires 0 <= i < j < |Kinds|
    ensures Kinds[i] < Kinds[j]
    ensures Kinds[i] != Kinds[j]
  {
  }

  /** The zero value of `Type` is not a named kind. */
  lemma ZeroIsNoKind()
    ensures !IsNamedKind(0)
  {
  }

  /** One marshalled argument: the registered type name and the encoded value. */
  datatype ArgData = ArgData(typeName: string, value: string)

  /**
   * One entry of a transaction's log. `subTxID` is the empty string for the
   * transaction-scoped kinds; `args` is empty except on a StartSubTx entry.
   * The `Time` field of the source record is not modelled.
   */
  datatype Log = Log(typ: Type, subTxID: string, args: seq<ArgData>)
}
