/** Option and Result wrappers, and the Python exceptions the model reports as values. */
module Wrappers {

  datatype Option<+T> = None | Some(value: T)

  /** The exceptions the modelled code can raise, by Python class. */
  datatype Error =
    | KeyError(key: string)
    | AttributeError(name: string)
    | TypeError
    | ValueError
    | ClientError
    | UsageError(message: string)

  /** Either a value or the exception that the Python code raises instead. */
  datatype Result<+T> = Ok(value: T) | Err(error: Error)

  /** A unit value for operations that return nothing. */
  datatype Unit = Unit

  /** A generator that yields `row(entry)` for each entry in order, consumed
      into a list: the first exception stops it. */
  function Collect<T, U>(entries: seq<T>, row: T -> Result<U>): (r: Result<seq<U>>)
  {
    if entries == [] then Ok([])
    else match Collect(entries[..|entries| - 1], row)
      case Err(e) => Err(e)
      case Ok(rows) =>
        match row(entries[|entries| - 1])
        case Err(e) => Err(e)
        case Ok(value) => Ok(rows + [value])
  }

  /** One row per entry, in order, when no entry raises. */
  lemma {:induction false} CollectRows<T, U>(entries: seq<T>, row: T -> Result<U>)
    ensures Collect(entries, row).Ok? <==> forall k :: 0 <= k < |entries| ==> row(entries[k]).Ok?
    ensures Collect(entries, row).Ok? ==>
              |Collect(entries, row).value| == |entries|
              && forall k :: 0 <= k < |entries| ==> Collect(entries, row).value[k] == row(entries[k]).value
    decreases |entries|
  {
    if entries != [] {
      var init := entries[..|entries| - 1];
      CollectRows(init, row);
      assert forall k :: 0 <= k < |init| ==> init[k] == entries[k];
      if Collect(init, row).Err? {
        var k :| 0 <= k < |init| && row(init[k]).Err?;
        assert row(entries[k]).Err?;
      }
    }
  }

  /** An exception stops the rest of the output. */
  lemma {:induction false} CollectStops<T, U>(entries: seq<T>, k: nat, row: T -> Result<U>, e: Error)
    requires k <= |entries| && Collect(entries[..k], row) == Err(e)
    ensures Collect(entries, row) == Err(e)
    decreases |entries| - k
  {
    if k == |entries| {
      assert entries[..k] == entries;
    } else {
      var n := |entries|;
      assert entries[..n - 1][..k] == entries[..k];
      CollectStops(entries[..n - 1], k, row, e);
    }
  }
}
