/** The Datadog implementation of the OpenTracing Span
    (ddtrace/opentracer/span.py:43-193). The span holds its current context
    and its Datadog delegate, both of which it replaces, a finished latch and
    its log. */
module Adapter {
  import opened Base
  import opened DatadogSpan
  import opened Translation
  import opened Contexts
  import opened Logs

  class Span {
    var context: SpanContext
    var dd: DdSpan
    var finished: bool
    const log: SpanLog

    /** A span built from an optional parent context; freshDd is the Datadog
        context a fresh SpanContext allocates. The delegate is created at
        once, bound to the span's Datadog context. */
    constructor (parent: Option<SpanContext>, operationName: string, freshDd: DdContext)
      ensures context == InitialContext(parent, freshDd)
      ensures fresh(dd) && fresh(log)
      ensures dd.name == operationName && dd.context == context.ddContext
      ensures dd.View() == Fields(None, None, 0, map[]) && dd.calls == []
      ensures log.records == [] && !finished
    {
      var ctx := InitialContext(parent, freshDd);
      context := ctx;
      log := new SpanLog();
      finished := false;
      dd := new DdSpan(operationName, ctx.ddContext);
    }

    /** finish: the first call that returns passes finishTime to the delegate
        and sets the latch; once the latch is set, a call does nothing. When
        the delegate raises, the exception propagates and the latch stays
        unset. */
    method Finish(finishTime: Option<Time>, delegateRaises: bool) returns (raised: bool)
      modifies this`finished, dd`calls
      ensures old(finished) ==> finished && !raised && dd.calls == old(dd.calls)
      ensures !old(finished) ==> dd.calls == old(dd.calls) + [FinishCall(finishTime)]
      ensures !old(finished) ==> raised == delegateRaises && finished == !delegateRaises
    {
      if finished {
        return false;
      }
      raised := dd.Finish(finishTime, delegateRaises);
      if raised {
        return;
      }
      finished := true;
    }

    /** set_baggage_item: the context becomes the old one with the item added,
        and the item is also set as a tag through the same routing. */
    method SetBaggageItem(k: Key, v: Value) returns (r: Span)
      modifies this`context, dd`spanType, dd`resource, dd`meta
      ensures context == WithBaggageItem(old(context), k, v)
      ensures dd.View() == RouteTag(old(dd.View()), k, v)
      ensures r == this
    {
      var newCtx := WithBaggageItem(context, k, v);
      SetTag(k, v);
      context := newCtx;
      r := this;
    }

    /** get_baggage_item: the value stored in the current context, or None. */
    function GetBaggageItem(k: Key): (r: Option<Value>)
      reads this
      ensures r.Some? <==> k in context.baggage
      ensures r.Some? ==> r.value == context.baggage[k]
    {
      BaggageItem(context, k)
    }

    method SetOperationName(operationName: string)
      modifies dd`name
      ensures dd.name == operationName
    {
      dd.name := operationName;
    }

    /** log_kv: appends one record holding the mapping verbatim, then applies
        the per-field dispatch to the delegate in iteration order. */
    method LogKv(kvs: KeyValues, timestamp: Option<Time>, now: Time) returns (r: Span)
      modifies log, dd`spanType, dd`resource, dd`meta, dd`error
      ensures log.records == old(log.records) + [NewRecord(kvs, timestamp, now)]
      ensures dd.View() == ApplyLog(old(dd.View()), kvs)
      ensures r == this
    {
      log.AddRecord(kvs, timestamp, now);
      for i := 0 to |kvs|
        invariant log.records == old(log.records) + [NewRecord(kvs, timestamp, now)]
        invariant dd.View() == ApplyLog(old(dd.View()), kvs[..i])
      {
        var (key, val) := kvs[i];
        if key == Name("event") && val == Str("error") {
          dd.error := 1;
          SetTag(Name("error"), Int(1));
        } else if key == Name("error") || key == Name("error.object") {
          SetTag(ErrorTypeTag, val);
        } else if key == Name("message") {
          SetTag(ErrorMsgTag, val);
        } else if key == Name("stack") {
          SetTag(ErrorStackTag, val);
        }
        assert kvs[..i + 1][..i] == kvs[..i];
      }
      assert kvs[..|kvs|] == kvs;
      r := this;
    }

    /** set_tag: SPAN_TYPE goes to span_type, HTTP_URL and DB_STATEMENT to
        resource, every other key to a generic tag. */
    method SetTag(k: Key, v: Value)
      modifies dd`spanType, dd`resource, dd`meta
      ensures dd.View() == RouteTag(old(dd.View()), k, v)
    {
      if k == SpanTypeTag {
        dd.spanType := Some(v);
      } else if k == HttpUrlTag || k == DbStatementTag {
        dd.resource := Some(v);
      } else {
        dd.SetTag(k, v);
      }
    }

    /** _get_tag: the delegate's generic tag for k, or None. */
    function GetTag(k: Key): (r: Option<Value>)
      reads this, dd
      ensures r.Some? <==> k in dd.meta
      ensures r.Some? ==> r.value == dd.meta[k]
    {
      MetaGet(dd.View(), k)
    }

    method Enter() returns (r: Span)
      ensures r == this
    {
      r := this;
    }

    /** __exit__: records the exception info on the delegate when there is one,
        passes the exit on to the delegate, then finishes this span. */
    method Exit(exc: Option<ExcInfo>, delegateRaises: bool) returns (raised: bool)
      modifies this`finished, dd`calls
      ensures dd.calls == old(dd.calls)
                          + (if exc.Some? then [SetExcInfoCall(exc.value)] else [])
                          + [ExitCall(exc)]
                          + (if old(finished) then [] else [FinishCall(None)])
      ensures raised == (!old(finished) && delegateRaises)
      ensures finished == !raised
    {
      if exc.Some? {
        dd.SetExcInfo(exc.value);
      }
      dd.Exit(exc);
      raised := Finish(None, delegateRaises);
    }

    /** _add_dd_span: rebinds the span to d, points the context at d's
        Datadog context, and replays every baggage item onto d as a tag. */
    method AddDdSpan(d: DdSpan)
      modifies this`dd, this`context, d`spanType, d`resource, d`meta
      ensures dd == d
      ensures context == old(context).(ddContext := d.context)
      ensures Replayed(old(d.View()), d.View(), context.baggage, context.baggage.Keys)
    {
      dd := d;
      context := context.(ddContext := d.context);
      var pending := context.baggage.Keys;
      ReplayStart(d.View(), context.baggage);
      while pending != {}
        invariant dd == d && context == old(context).(ddContext := d.context)
        invariant pending <= context.baggage.Keys
        invariant Replayed(old(d.View()), d.View(), context.baggage, context.baggage.Keys - pending)
        decreases pending
      {
        var k :| k in pending;
        ghost var before := d.View();
        SetTag(k, context.baggage[k]);
        ReplayStep(old(d.View()), before, context.baggage, context.baggage.Keys - pending, k);
        assert context.baggage.Keys - (pending - {k}) == (context.baggage.Keys - pending) + {k};
        pending := pending - {k};
      }
    }
  }
}
