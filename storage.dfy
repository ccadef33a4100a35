/**
 * What the engine reads back from the search backend. Queries are inputs of the
 * model: a list of records or an error text. The clock is an integer count of
 * seconds.
 */
module Storage {
  import opened Wrappers

  /** Seconds per minute: policies count their windows in minutes. */
  const Minute: int := 60

  /** A stored check result as the severity loop reads it: pass/fail and when. */
  datatype Sample = Sample(passed: bool, timestamp: int)

  /** An alert record (database_alert.go:13-16). */
  datatype AlertRecord = AlertRecord(alertId: string, timestamp: int)

  /** The outcome of a storage query. */
  type Query<T> = Result<seq<T>, string>

  /**
   * The records a range query on `alertId` and `timestamp` returns
   * (`GetAlertsSince`): those for `id` stamped from `from` to `to` inclusive.
   */
  function AlertsSince(store: seq<AlertRecord>, id: string, from: int, to: int): (r: seq<AlertRecord>)
    ensures forall a :: a in r <==> a in store && a.alertId == id && from <= a.timestamp <= to
  {
    if store == [] then []
    else
      var rest := AlertsSince(store[1..], id, from, to);
      if store[0].alertId == id && from <= store[0].timestamp <= to then [store[0]] + rest else rest
  }
}
