# OpenTracing span adapter for the Datadog tracer — a Dafny model

This project models `ddtrace/opentracer/span.py`. That file is the Datadog implementation of the
OpenTracing `Span`: an adapter that takes OpenTracing span operations and translates them onto
an underlying Datadog span, called the *delegate*.

The model has seven modules:

- `Base` holds the shared vocabulary:
  - `Key`, the tag, baggage and log-field keys. The six tag-name constants `OTTags.SPAN_TYPE`,
    `OTTags.HTTP_URL`, `OTTags.DB_STATEMENT`, `errors.ERROR_TYPE`, `errors.ERROR_MSG` and
    `errors.ERROR_STACK` are constructors of their own.
  - `Value`, the Python values.
  - `KeyValues`, a log mapping as a sequence of pairs in the dictionary's iteration order.
  - `Time` and `DdContext`.
- `DatadogSpan` is the delegate, class `DdSpan`, modelled only through its interface:
  - the fields the adapter writes: `name`, `span_type`, `resource`, `error` and the generic tag
    map `meta`;
  - a log of the `finish`, `set_exc_info` and `__exit__` calls it receives, in order.
- `Translation` holds pure specification functions:
  - the routing table of `set_tag`, as the *slot* a key lands in;
  - the per-field dispatch of `log_kv`, and its fold over a mapping (`ApplyLog`);
  - what replaying baggage as tags yields (`Replayed`).

  The lemmas about these functions carry the properties.
- `Contexts` holds the span context as an immutable value: the wrapped Datadog context plus the
  baggage. `with_baggage_item` builds a new value.
- `Logs` holds `SpanLogRecord` and the class `SpanLog`, an append-only record list with
  Python-style indexing.
- `Adapter` holds the class `Span`. It has the fields `context`, `dd` (`_dd_span`), `finished`
  and `log`. Each method is proved against the functions above.
- `Scenarios` holds client methods that derive the behaviour a caller sees over a sequence of
  calls. They use the method contracts and the specification functions:
  - finishing twice;
  - retrying after the delegate raised;
  - baggage copy-on-write;
  - exit with an exception;
  - log indexing;
  - translation of an error event.

Some collaborators are not shown in the source, so the model makes these assumptions:

- The delegate's own `__exit__` (line 179) is recorded as one call with the exception info it
  is given. What it does is left abstract; the comment at lines 177-178 says it finishes the
  delegate idempotently. Any error it meets is taken to be handled inside the delegate.
- The delegate keeps as its `context` the Datadog context it was built with.
- A fresh `SpanContext()` brings along a fresh Datadog context. It is a parameter of the `Span`
  constructor.
- Whether the delegate's `finish` raises is a parameter, `delegateRaises`.

Properties a caller of an OpenTracing span might expect that this code does not give:

- **No lost baggage updates.** `set_baggage_item` builds the new context from the current one
  before it takes the lock (line 92) and swaps it in under the lock (lines 94-95). Two
  concurrent writers can therefore both start from the same old baggage, and one item is lost.
  The model is sequential and claims nothing about concurrency.
- **Immutable contexts.** The OpenTracing specification describes a span context as immutable.
  `_add_dd_span` assigns to `self.context._dd_context` in place (line 186).
- **No writes after finish.** Nothing in `set_tag`, `log_kv`, `set_baggage_item` or
  `set_operation_name` checks `finished`. The model lets them write after finish, as the code
  does.
- **Index errors.** `SpanLog.__getitem__` raises `TypeError` for an index that is not an exact
  `int` (line 40), including a `bool` and a Python 2 `long`. An `int` that is out of range
  raises `IndexError`, from the list itself.
- **Falsy timestamps.** A log timestamp falls back to "now" whenever the given one is falsy
  (line 18), so `0` falls back too, not only `None`.

## Model

| member | source | states |
|---|---|---|
| `Logs.NewRecord` | ddtrace/opentracer/span.py:17-19 | the record holds the mapping verbatim; its timestamp is the given one when truthy, else "now" (so None and 0 both give "now") |
| `Logs.SpanLog.constructor` | ddtrace/opentracer/span.py:27-28 | a new log has no records |
| `Logs.SpanLog.AddRecord` | ddtrace/opentracer/span.py:30-31 | exactly one record is appended; index -1 now yields it; every earlier index yields the same record as before |
| `Logs.SpanLog.Length` | ddtrace/opentracer/span.py:33-34 | the length n is exactly the bound of the int indexes that succeed: i succeeds iff -n <= i < n |
| `Logs.SpanLog.Get` | ddtrace/opentracer/span.py:36-40 | an index that is not an exact int (a bool or a Python 2 long included) fails with TypeError; an int in 0..n-1 yields records[i]; an int in -n..-1 yields records[n+i]; any other int fails with IndexError |
| `Contexts.InitialContext` | ddtrace/opentracer/span.py:47-51 | with a parent, the span's context carries the parent's Datadog context and answers every baggage key as the parent does; without one, it carries a fresh Datadog context and no baggage |
| `Adapter.Span.constructor` | ddtrace/opentracer/span.py:46-60 | the context is the inherited or fresh one; a fresh delegate is named after the operation, bound to the context's Datadog context, has no tags set through the adapter and has received no calls; the log is empty and the span is not finished |
| `Adapter.Span.Finish` | ddtrace/opentracer/span.py:62-76 | once finished, a call returns and leaves the delegate's call log unchanged; otherwise the delegate receives exactly one finish with the given end time, and the latch is set exactly when that finish did not raise |
| `Contexts.WithBaggageItem` | ddtrace/opentracer/span.py:92 | the new context has the same Datadog context; it answers v for k and what the old context answers for every other key; its key set is the old one plus k |
| `Adapter.Span.SetBaggageItem` | ddtrace/opentracer/span.py:78-96 | the span's context becomes the old context with k set to v; the delegate's fields change exactly as set_tag(k, v) routes them; the span itself is returned |
| `Adapter.Span.GetBaggageItem` | ddtrace/opentracer/span.py:98-107 | the result is present exactly when k is in the current baggage, and it is then the stored value |
| `Adapter.Span.SetOperationName` | ddtrace/opentracer/span.py:109-111 | the delegate's name becomes the given operation name |
| `Adapter.Span.LogKv` | ddtrace/opentracer/span.py:113-148 | exactly one record holding the mapping unchanged is appended to the log; the delegate's fields become those produced by the per-field dispatch over the mapping in iteration order; the span itself is returned |
| `Translation.ApplyLogFrame` | ddtrace/opentracer/span.py:134-146 | log_kv writes no slot other than the generic 'error' tag and the three error tags: span_type, resource and every other generic tag keep their values |
| `Translation.ApplyLogErrorFlag` | ddtrace/opentracer/span.py:135-138 | if some field is event == 'error', the delegate's error flag and the generic 'error' tag are both 1; otherwise both are as before |
| `Translation.ApplyLogUntouched` | ddtrace/opentracer/span.py:139-144 | an error tag that no field is mirrored onto keeps its value |
| `Translation.ApplyLogLastWins` | ddtrace/opentracer/span.py:134-144 | each error tag ends up holding the value of the last field in iteration order that is mirrored onto it ('error'/'error.object' for ERROR_TYPE, 'message' for ERROR_MSG, 'stack' for ERROR_STACK) |
| `Translation.ErrorTypeOrder` | ddtrace/opentracer/span.py:134-140 | with both 'error' and 'error.object' present, whichever comes later in iteration order sets ERROR_TYPE |
| `Translation.SlotOf` | ddtrace/opentracer/span.py:155-160 | the routing table: SPAN_TYPE and only it goes to span_type; HTTP_URL and DB_STATEMENT and only they go to resource; every other key goes to its own generic tag |
| `Translation.ActionOf` | ddtrace/opentracer/span.py:135-146 | the per-field dispatch: the pair (event, 'error') and only it marks an error; 'error' and 'error.object' mirror onto ERROR_TYPE, 'message' onto ERROR_MSG, 'stack' onto ERROR_STACK; every other field, event with another value included, is ignored |
| `Translation.LogField` | ddtrace/opentracer/span.py:135-146 | one iteration sets the error flag to 1 exactly when the field marks an error, else keeps it, and writes no slot other than the four log tags |
| `Translation.ApplyLog` | ddtrace/opentracer/span.py:134-146 | the loop over key_values.items() as a fold in iteration order; the error flag is either kept or becomes 1 (its other properties are the ApplyLog lemmas) |
| `Translation.Replayed` | ddtrace/opentracer/span.py:188-189 | the fields after set_tag(k, bag[k]) for every k of a key set in some order: error kept, span_type from SPAN_TYPE if replayed, resource from one replayed HTTP_URL/DB_STATEMENT, generic tags extended by the generic entries |
| `Contexts.BaggageItem` | ddtrace/opentracer/span.py:107 | the context's get_baggage_item: the stored value, or None when the key is absent |
| `DatadogSpan.MetaGet` | ddtrace/opentracer/span.py:168 | the delegate's get_tag: the generic tag's value, or None |
| `Translation.RouteTag` | ddtrace/opentracer/span.py:155-161 | after set_tag(k, v) the slot k routes to (span_type for SPAN_TYPE, resource for HTTP_URL and DB_STATEMENT, the generic tag k otherwise) holds v; every other slot and the error flag are unchanged |
| `Translation.SlotsDetermineFields` | ddtrace/opentracer/span.py:155-161 | the slots and the error flag determine the delegate's fields, so the routing contract fixes the result completely |
| `Translation.TagReadBack` | ddtrace/opentracer/span.py:155-168 | reading a tag back through the delegate's get_tag returns v only for keys routed to a generic tag; keys routed to span_type or resource read back what the generic tag held before |
| `Adapter.Span.SetTag` | ddtrace/opentracer/span.py:150-161 | the delegate's fields change exactly as the routing table says for (k, v); name, finish calls and error flag are untouched |
| `Adapter.Span.GetTag` | ddtrace/opentracer/span.py:163-168 | the result is present exactly when the delegate has a generic tag k, and it is then that tag's value |
| `Adapter.Span.Enter` | ddtrace/opentracer/span.py:170-171 | the span itself is returned |
| `Adapter.Span.Exit` | ddtrace/opentracer/span.py:173-180 | the delegate receives, in this order: set_exc_info when there is an exception; its own __exit__ with the same exception info; and a finish without end time unless the span was already finished. The span is finished afterwards unless that last finish raised |
| `Adapter.Span.AddDdSpan` | ddtrace/opentracer/span.py:182-189 | the span's delegate becomes d; the context keeps its baggage and now carries d's Datadog context; d's fields are the result of replaying every baggage entry onto them through set_tag |
| `Translation.ReplayStep` | ddtrace/opentracer/span.py:188-189 | replaying one more baggage entry through set_tag extends a replay by that entry |
| `Translation.ReplayedShowsBaggage` | ddtrace/opentracer/span.py:182-189 | after the replay, every baggage entry is visible in the slot its key routes to, unless HTTP_URL and DB_STATEMENT compete for resource; slots no baggage key routes to are unchanged |
| `DatadogSpan.DdSpan.constructor` | ddtrace/opentracer/span.py:59-60 | a delegate built with a name and a Datadog context has that name and context, no adapter-set fields and no calls |
| `DatadogSpan.DdSpan.SetTag` | ddtrace/opentracer/span.py:161 | the delegate's generic tag k is set to v |
| `DatadogSpan.DdSpan.Finish` | ddtrace/opentracer/span.py:75 | the finish call with its end time is recorded; whether it raised is reported back |
| `DatadogSpan.DdSpan.SetExcInfo` | ddtrace/opentracer/span.py:175 | the set_exc_info call is recorded |
| `DatadogSpan.DdSpan.Exit` | ddtrace/opentracer/span.py:177-179 | the delegate's __exit__ is recorded with the exception info it is passed; what it does is left abstract |
| `Scenarios.FinishTwice` | ddtrace/opentracer/span.py:71-76 | two finishes reach the delegate only once, with the first end time, and leave the span finished |
| `Scenarios.FinishRetriedAfterRaise` | ddtrace/opentracer/span.py:74-76 | after a finish whose delegate raised, the next finish reaches the delegate again and sets the latch |
| `Scenarios.BaggageCopyOnWrite` | ddtrace/opentracer/span.py:47-51 | a child of a parent with baggage {a: x} inherits it on the parent's Datadog context; after set b := y its new context holds {a: x, b: y}. That the parent and the earlier context still hold only {a: x} follows from contexts being values, not from a Span contract |
| `Scenarios.ExitWithException` | ddtrace/opentracer/span.py:170-180 | leaving the block with exception e gives the call sequence set_exc_info(e), __exit__(e), finish, and a finished span |
| `Scenarios.ThreeLogs` | ddtrace/opentracer/span.py:30-40 | after three log_kv calls the length is 3; index 0 gives the first record (falsy timestamp replaced by now) and index -1 the last; bool, Python 2 long and string indexes fail with TypeError |
| `Scenarios.LogErrorEvent` | ddtrace/opentracer/span.py:130-146 | log_kv({'event': 'error', 'error.object': v}) keeps the raw record at index 0, sets the error flag and the generic 'error' tag to 1 and ERROR_TYPE to v, and sets no other generic tag |

## Left out

- Locking (`threading.Lock`, lines 57 and 94) is not modelled. The context swap is a plain
  assignment, and nothing about concurrent writers is claimed.
- Clock and number types: `time.time()` becomes a `now` parameter. Float timestamps are
  integers.
- The tracer argument and `tracer._dd_tracer` (line 59) are opaque and are dropped.
- The `OpenTracingSpan` base class is not part of this model. `self.context` is taken to be the
  `context` field.
- The `_dd_context` property (lines 191-193) is only `dd.context`. It is read directly and has
  no member of its own.
- The `DatadogSpan` internals (ddtrace/span.py) are not part of this model:
  - its timing, sampling, recording and stringification;
  - what `set_exc_info` and its own `__exit__` write beyond their recorded calls;
  - errors raised by its `set_tag` or `set_exc_info`. Only a raising `finish` is modelled.
- `span_context.py` and `tags.py` are not part of this model:
  - `SpanContext` becomes a value, and `with_baggage_item` the function
    `Contexts.WithBaggageItem`.
  - The concrete strings of the tag-name constants are not known. A key written `Name(s)` is
    taken to be a string equal to none of the six constants.
- Value kinds: Python values are `Str`, `Int` or an opaque `Obj`. Python's equality between
  different types, such as `1 == True` or `str` subclasses, is not modelled.
- `Logs.NewRecord`: `SpanLogRecord.__init__` stores the caller's dict object itself (line 19),
  not a copy. If the caller mutates that dict after `log_kv`, the stored record changes too. The
  model stores the mapping as a value, so this aliasing, and with it `Adapter.Span.LogKv`'s
  record changing later, is not captured.
- Log mappings are sequences of pairs. The model does not require their keys to be distinct, as
  a dict's keys are.
- `Adapter.Span.AddDdSpan`: the iteration order of `baggage.items()` (line 188) is not modelled.
  Entries are replayed in an unspecified order. When the baggage holds both HTTP_URL and
  DB_STATEMENT, the contract only says that resource holds one of the two values, where the
  code picks the later one in dict order.
- `Adapter.Span.AddDdSpan`: line 186 updates the context object in place, and the model
  rebuilds the context value instead. Other holders of that same Python object would see the
  change; in the model they do not.
