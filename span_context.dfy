/** The OpenTracing span context as a value: the Datadog context it wraps and
    the baggage. A new baggage item makes a new context (copy-on-write). The
    SpanContext class itself (span_context.py) is not part of this model. */
module Contexts {
  import opened Base

  datatype SpanContext = SpanContext(ddContext: DdContext, baggage: map<Key, Value>)

  /** get_baggage_item: the stored value, or None when the key is absent. */
  function BaggageItem(c: SpanContext, k: Key): Option<Value> {
    if k in c.baggage then Some(c.baggage[k]) else None
  }

  /** with_baggage_item(k, v): a new context carrying the same Datadog context,
      whose baggage answers v for k and what c answers for every other key.
      Being a value, c itself is untouched. */
  function WithBaggageItem(c: SpanContext, k: Key, v: Value): (r: SpanContext)
    ensures r.ddContext == c.ddContext
    ensures BaggageItem(r, k) == Some(v)
    ensures forall k' :: k' != k ==> BaggageItem(r, k') == BaggageItem(c, k')
    ensures r.baggage.Keys == c.baggage.Keys + {k}
  {
    SpanContext(c.ddContext, c.baggage[k := v])
  }

  /** The context a new span starts with (ddtrace/opentracer/span.py:47-51):
      the parent's Datadog context and baggage when there is a parent, else a
      fresh Datadog context and no baggage. */
  function InitialContext(parent: Option<SpanContext>, freshDd: DdContext): (c: SpanContext)
    ensures parent.Some? ==> c.ddContext == parent.value.ddContext
    ensures parent.Some? ==> forall k :: BaggageItem(c, k) == BaggageItem(parent.value, k)
    ensures parent.None? ==> c.ddContext == freshDd
    ensures parent.None? ==> forall k :: BaggageItem(c, k) == None
  {
    match parent
    case Some(p) => SpanContext(p.ddContext, p.baggage)
    case None => SpanContext(freshDd, map[])
  }
}
