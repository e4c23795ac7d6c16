/**
 * The in-memory log store of storage/memory/cache.go: a map from a
 * transaction id to the list of its log entries, in append order.
 * The map functions here are also the state change of every backend the
 * coordinator appends to (see Tx.Storage).
 */
module Memory {
  import opened Wrappers

  /** The list stored under `id`, or the empty list when there is none. */
  function Lookup<D>(logs: map<string, seq<D>>, id: string): seq<D> {
    if id in logs then logs[id] else []
  }

  /** Every list in the store holds at least one entry. */
  ghost predicate NonEmptyLists<D>(logs: map<string, seq<D>>) {
    forall id :: id in logs ==> |logs[id]| > 0
  }

  /** The store after appending `d` under `id` (cache.go's AppendLog). */
  function Appended<D>(logs: map<string, seq<D>>, id: string, d: D): (r: map<string, seq<D>>)
    ensures r.Keys == logs.Keys + {id}
    ensures Lookup(r, id) == Lookup(logs, id) + [d]
    ensures forall k :: k in logs && k != id ==> r[k] == logs[k]
  {
    logs[id := Lookup(logs, id) + [d]]
  }

  /** The store after appending each of `ds`, one by one and in order, under `id`. */
  function AppendAll<D>(logs: map<string, seq<D>>, id: string, ds: seq<D>): map<string, seq<D>>
    decreases |ds|
  {
    if ds == [] then logs else Appended(AppendAll(logs, id, ds[..|ds| - 1]), id, ds[|ds| - 1])
  }

  /** The store after a batch `ds` of appends under `id`, in closed form. */
  function AppendedAll<D>(logs: map<string, seq<D>>, id: string, ds: seq<D>): (r: map<string, seq<D>>)
    ensures Lookup(r, id) == Lookup(logs, id) + ds
  {
    if ds == [] then logs else logs[id := Lookup(logs, id) + ds]
  }

  /**
   * A batch of appends under `id` makes `id` a key if the batch is not
   * empty, leaves every other list alone, and makes no list empty.
   */
  lemma AppendedAllFrame<D>(logs: map<string, seq<D>>, id: string, ds: seq<D>)
    ensures AppendedAll(logs, id, ds).Keys == if ds == [] then logs.Keys else logs.Keys + {id}
    ensures forall k :: k in logs && k != id ==> AppendedAll(logs, id, ds)[k] == logs[k]
    ensures NonEmptyLists(logs) ==> NonEmptyLists(AppendedAll(logs, id, ds))
  {
  }

  /** Insertion order is read order: appending one by one is the closed form. */
  lemma {:induction false} AppendAllIsAppendedAll<D>(logs: map<string, seq<D>>, id: string, ds: seq<D>)
    ensures AppendAll(logs, id, ds) == AppendedAll(logs, id, ds)
    decreases |ds|
  {
    if ds != [] {
      var front := ds[..|ds| - 1];
      AppendAllIsAppendedAll(logs, id, front);
      var m := AppendedAll(logs, id, front);
      calc {
        AppendAll(logs, id, ds);
        Appended(m, id, ds[|ds| - 1]);
        m[id := Lookup(m, id) + [ds[|ds| - 1]]];
        { assert Lookup(m, id) + [ds[|ds| - 1]] == Lookup(logs, id) + ds; }
        logs[id := Lookup(logs, id) + ds];
      }
    }
  }

  /** Two batches of appends are one batch of their concatenation. */
  lemma AppendedAllConcat<D>(logs: map<string, seq<D>>, id: string, a: seq<D>, b: seq<D>)
    ensures AppendedAll(AppendedAll(logs, id, a), id, b) == AppendedAll(logs, id, a + b)
  {
    if a == [] {
      assert a + b == b;
    } else if b == [] {
      assert a + b == a;
    } else {
      assert Lookup(logs, id) + a + b == Lookup(logs, id) + (a + b);
    }
  }

  /** Under the invariant, an id exists exactly when something was appended under it. */
  lemma ExistsIffNonEmpty<D>(logs: map<string, seq<D>>, id: string)
    requires NonEmptyLists(logs)
    ensures id in logs <==> |Lookup(logs, id)| > 0
  {
  }

  /** cache.go's `LogCache`. Entries are the serialized log strings. */
  class LogCache {
    var logs: map<string, seq<string>>

    ghost predicate Valid()
      reads this
    {
      NonEmptyLists(logs)
    }

    /** NewLogStorage: an empty store. */
    constructor ()
      ensures Valid()
      ensures logs == map[]
      ensures forall id :: Lookup(logs, id) == []
    {
      logs := map[];
    }

    /** Reports whether `id` has a list; never fails and never changes the store. */
    method TxIDAlreadyExists(id: string) returns (found: bool, err: Option<string>)
      requires Valid()
      ensures err == None
      ensures found <==> id in logs
      ensures found <==> |Lookup(logs, id)| > 0
    {
      found := id in logs;
      err := None;
    }

    /** Appends `logData` to the list of `id`, creating it when absent; never fails. */
    method AppendLog(id: string, logData: string) returns (err: Option<string>)
      requires Valid()
      modifies this
      ensures Valid()
      ensures err == None
      ensures logs == Appended(old(logs), id, logData)
    {
      if id in logs {
        logs := logs[id := logs[id] + [logData]];
      } else {
        assert Lookup(logs, id) + [logData] == [logData];
        logs := logs[id := [logData]];
      }
      err := None;
    }

    /**
     * The read operation the coordinator's Storage needs (cache.go has none):
     * the list stored under `id`, or the empty list.
     */
    method GetTxLogs(id: string) returns (entries: seq<string>, err: Option<string>)
      requires Valid()
      ensures err == None
      ensures id in logs ==> entries == logs[id] && |entries| > 0
      ensures id !in logs ==> entries == []
    {
      entries := if id in logs then logs[id] else [];
      err := None;
    }
  }
}
