/** Client-side consequences of the Span contracts: what a caller of the
    adapter can rely on for a whole sequence of calls. */
module Scenarios {
  import opened Base
  import opened DatadogSpan
  import opened Contexts
  import opened Logs
  import opened Adapter
  import opened Translation

  /** Finishing twice finishes the delegate once, with the first end time. */
  method FinishTwice(parent: Option<SpanContext>, freshDd: DdContext, t1: Option<Time>, t2: Option<Time>)
    returns (calls: seq<Call>, finished: bool)
    ensures calls == [FinishCall(t1)] && finished
  {
    var span := new Span(parent, "op", freshDd);
    var raised := span.Finish(t1, false);
    raised := span.Finish(t2, false);
    calls, finished := span.dd.calls, span.finished;
  }

  /** A delegate whose finish raises leaves the latch unset, so a later finish
      reaches the delegate again. */
  method FinishRetriedAfterRaise(freshDd: DdContext, t1: Option<Time>, t2: Option<Time>)
    returns (calls: seq<Call>, finished: bool)
    ensures calls == [FinishCall(t1), FinishCall(t2)] && finished
  {
    var span := new Span(None, "op", freshDd);
    var raised := span.Finish(t1, true);
    raised := span.Finish(t2, false);
    calls, finished := span.dd.calls, span.finished;
  }

  /** A child of a parent with baggage {a: x} that sets b := y: the new
      context reports both items on the parent's Datadog context. That the
      parent and the context held before still report only a follows from
      contexts being values, not from any contract of Span. */
  method BaggageCopyOnWrite(d: DdContext, a: Key, b: Key, x: Value, y: Value)
    returns (before: SpanContext, after: SpanContext, parent: SpanContext)
    requires a != b
    ensures parent.baggage == map[a := x]
    ensures before.baggage == map[a := x] && before.ddContext == d
    ensures after.baggage == map[a := x, b := y] && after.ddContext == d
  {
    parent := SpanContext(d, map[a := x]);
    var span := new Span(Some(parent), "child", DdContext(0));
    before := span.context;
    var r := span.SetBaggageItem(b, y);
    after := span.context;
  }

  /** Leaving the guarded block with an exception records the exception info
      first, then the delegate's own exit and the span's finish follow. */
  method ExitWithException(freshDd: DdContext, e: ExcInfo)
    returns (calls: seq<Call>, finished: bool)
    ensures calls == [SetExcInfoCall(e), ExitCall(Some(e)), FinishCall(None)] && finished
  {
    var span := new Span(None, "op", freshDd);
    var s := span.Enter();
    var raised := s.Exit(Some(e), false);
    calls, finished := span.dd.calls, span.finished;
  }

  /** Three log_kv calls: the log has length 3, the records come back by
      position from either end, and indexes that are not ints (a bool, a
      Python 2 long, a string) fail with TypeError. */
  method ThreeLogs(freshDd: DdContext, r1: KeyValues, r2: KeyValues, r3: KeyValues, now: Time)
    returns (n: nat, first: Result<SpanLogRecord, IndexFailure>, last: Result<SpanLogRecord, IndexFailure>,
             byBool: Result<SpanLogRecord, IndexFailure>, byLong: Result<SpanLogRecord, IndexFailure>,
             byString: Result<SpanLogRecord, IndexFailure>)
    ensures n == 3
    ensures first == Ok(SpanLogRecord(r1, now)) && last == Ok(SpanLogRecord(r3, 7))
    ensures byBool == Err(TypeError) && byLong == Err(TypeError) && byString == Err(TypeError)
  {
    var span := new Span(None, "op", freshDd);
    var s := span.LogKv(r1, None, now);
    s := span.LogKv(r2, Some(0), now);
    s := span.LogKv(r3, Some(7), now);
    n := span.log.Length();
    first := span.log.Get(IntIndex(0));
    last := span.log.Get(IntIndex(-1));
    byBool := span.log.Get(BoolIndex(false));
    byLong := span.log.Get(LongIndex(0));
    byString := span.log.Get(OtherIndex("str"));
  }

  /** log_kv({'event': 'error', 'error.object': v}) keeps the raw record,
      sets the error flag and the generic 'error' tag to 1 and ERROR_TYPE to
      v, and writes no other tag. */
  method LogErrorEvent(freshDd: DdContext, v: Value, now: Time)
    returns (rec: Result<SpanLogRecord, IndexFailure>, error: int, errorTag: Option<Value>, errorType: Option<Value>,
             meta: map<Key, Value>)
    ensures rec == Ok(SpanLogRecord([(Name("event"), Str("error")), (Name("error.object"), v)], now))
    ensures error == 1 && errorTag == Some(Int(1)) && errorType == Some(v)
    ensures meta.Keys == {Name("error"), ErrorTypeTag}
  {
    var span := new Span(None, "op", freshDd);
    var kvs: KeyValues := [(Name("event"), Str("error")), (Name("error.object"), v)];
    var s := span.LogKv(kvs, None, now);
    assert kvs[..1] == [kvs[0]];
    ghost var f0 := Fields(None, None, 0, map[]);
    ghost var f1 := RouteTag(f0.(error := 1), Name("error"), Int(1));
    assert f1.meta == map[Name("error") := Int(1)];
    assert RouteTag(f1, ErrorTypeTag, v).meta == map[Name("error") := Int(1), ErrorTypeTag := v];
    assert ApplyLog(f0, kvs[..1]) == f1;
    assert span.dd.View() == RouteTag(f1, ErrorTypeTag, v);
    rec := span.log.Get(IntIndex(0));
    error, errorTag, errorType := span.dd.error, span.GetTag(Name("error")), span.GetTag(ErrorTypeTag);
    meta := span.dd.meta;
  }
}
