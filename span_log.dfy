/** SpanLogRecord and SpanLog (ddtrace/opentracer/span.py:12-40): an
    append-only list of timestamped log records. */
module Logs {
  import opened Base

  datatype SpanLogRecord = SpanLogRecord(record: KeyValues, timestamp: Time)

  /** Python truthiness of an optional timestamp: None and 0 are falsy. */
  predicate Truthy(t: Option<Time>) {
    t.Some? && t.value != 0
  }

  /** SpanLogRecord(key_values, timestamp): the mapping verbatim, and the
      timestamp given, or now when it is falsy. */
  function NewRecord(kvs: KeyValues, timestamp: Option<Time>, now: Time): (r: SpanLogRecord)
    ensures r.record == kvs
    ensures Truthy(timestamp) ==> r.timestamp == timestamp.value
    ensures !Truthy(timestamp) ==> r.timestamp == now
  {
    SpanLogRecord(kvs, if Truthy(timestamp) then timestamp.value else now)
  }

  /** The kinds of index __getitem__ can be given: a Python int (on Python 2
      one within the platform's int range), a Python 2 long (any integer
      beyond that range, or one built with long()), a bool, or an object of
      any other type. */
  datatype Index = IntIndex(i: int) | LongIndex(l: int) | BoolIndex(b: bool) | OtherIndex(typeName: string)

  datatype IndexFailure = TypeError | IndexError

  class SpanLog {
    var records: seq<SpanLogRecord>

    constructor ()
      ensures records == []
    {
      records := [];
    }

    method AddRecord(kvs: KeyValues, timestamp: Option<Time>, now: Time)
      modifies this
      ensures records == old(records) + [NewRecord(kvs, timestamp, now)]
      ensures Get(IntIndex(-1)) == Ok(NewRecord(kvs, timestamp, now))
      ensures forall i :: 0 <= i < |old(records)| ==> Get(IntIndex(i)) == Ok(old(records)[i])
    {
      records := records + [NewRecord(kvs, timestamp, now)];
    }

    /** __getitem__: only an int is accepted (neither a bool nor a Python 2
        long is, the test being type(key) is int); an int in -len .. len-1 indexes with Python's
        negative offsets; any other int is out of range. */
    function Get(key: Index): (r: Result<SpanLogRecord, IndexFailure>)
      reads this
      ensures !key.IntIndex? ==> r == Err(TypeError)
      ensures key.IntIndex? && 0 <= key.i < |records| ==> r == Ok(records[key.i])
      ensures key.IntIndex? && -|records| <= key.i < 0 ==> r == Ok(records[|records| + key.i])
      ensures key.IntIndex? && !(-|records| <= key.i < |records|) ==> r == Err(IndexError)
    {
      match key
      case IntIndex(i) =>
        if 0 <= i < |records| then Ok(records[i])
        else if -|records| <= i < 0 then Ok(records[|records| + i])
        else Err(IndexError)
      case _ => Err(TypeError)
    }

    /** __len__: the length n is exactly the bound of the int indexes that
        succeed, -n .. n-1. */
    function Length(): (n: nat)
      reads this
      ensures forall i :: Get(IntIndex(i)).Ok? <==> -(n as int) <= i < n
    {
      |records|
    }
  }
}
