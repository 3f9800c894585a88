/** The Datadog span the adapter delegates to (ddtrace/span.py is not part of
    this model). Only its interface is modelled: the fields the adapter writes,
    a generic tag map, and a log of the calls whose order matters. */
module DatadogSpan {
  import opened Base

  /** Exception info as handed to __exit__: type, value and traceback. */
  datatype ExcInfo = ExcInfo(excType: nat, excValue: Value, traceback: nat)

  /** The delegate calls the adapter makes whose order is observable. */
  datatype Call =
    | FinishCall(finishTime: Option<Time>)
    | SetExcInfoCall(info: ExcInfo)
    | ExitCall(exc: Option<ExcInfo>)

  /** The delegate's fields that tag and log translation write. None in
      spanType or resource stands for the delegate's own default. */
  datatype Fields = Fields(spanType: Option<Value>, resource: Option<Value>, error: int, meta: map<Key, Value>)

  /** The delegate's get_tag: a lookup of the generic tags. */
  function MetaGet(f: Fields, k: Key): Option<Value> {
    if k in f.meta then Some(f.meta[k]) else None
  }

  class DdSpan {
    var name: string
    var spanType: Option<Value>
    var resource: Option<Value>
    var error: int
    var meta: map<Key, Value>
    var calls: seq<Call>
    const context: DdContext

    function View(): Fields
      reads this
    {
      Fields(spanType, resource, error, meta)
    }

    constructor (name: string, context: DdContext)
      ensures this.name == name && this.context == context
      ensures View() == Fields(None, None, 0, map[]) && calls == []
    {
      this.name := name;
      this.context := context;
      spanType, resource, error, meta := None, None, 0, map[];
      calls := [];
    }

    method SetTag(k: Key, v: Value)
      modifies this`meta
      ensures meta == old(meta)[k := v]
    {
      meta := meta[k := v];
    }

    /** finish(finish_time); raises tells whether the delegate raised. */
    method Finish(finishTime: Option<Time>, raises: bool) returns (raised: bool)
      modifies this`calls
      ensures calls == old(calls) + [FinishCall(finishTime)]
      ensures raised == raises
    {
      calls := calls + [FinishCall(finishTime)];
      raised := raises;
    }

    method SetExcInfo(info: ExcInfo)
      modifies this`calls
      ensures calls == old(calls) + [SetExcInfoCall(info)]
    {
      calls := calls + [SetExcInfoCall(info)];
    }

    /** __exit__(exc_type, exc_val, exc_tb), recorded with its arguments; what
        the delegate does on exit (by the comment at span.py:177-178 it
        finishes itself, idempotently) is left abstract. Any error it meets is
        assumed handled inside the delegate. */
    method Exit(exc: Option<ExcInfo>)
      modifies this`calls
      ensures calls == old(calls) + [ExitCall(exc)]
    {
      calls := calls + [ExitCall(exc)];
    }
  }
}
