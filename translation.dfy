/** The adapter's translation of OpenTracing operations onto the Datadog span's
    fields, as pure functions: the routing table of set_tag, the per-field
    dispatch of log_kv, and the replay of baggage as tags. The methods of
    Adapter.Span are proved against these. */
module Translation {
  import opened Base
  import opened DatadogSpan

  /** A place on the delegate a tag can land in. */
  datatype Slot = SpanTypeSlot | ResourceSlot | MetaSlot(key: Key)

  /** The routing table of set_tag (ddtrace/opentracer/span.py:155-161). */
  function SlotOf(k: Key): (s: Slot)
    ensures s == SpanTypeSlot <==> k == SpanTypeTag
    ensures s == ResourceSlot <==> k == HttpUrlTag || k == DbStatementTag
    ensures s.MetaSlot? ==> s.key == k
  {
    if k == SpanTypeTag then SpanTypeSlot
    else if k == HttpUrlTag || k == DbStatementTag then ResourceSlot
    else MetaSlot(k)
  }

  function Read(f: Fields, s: Slot): Option<Value> {
    match s
    case SpanTypeSlot => f.spanType
    case ResourceSlot => f.resource
    case MetaSlot(k) => MetaGet(f, k)
  }

  /** set_tag(k, v) on the delegate's fields: the slot of k now holds v, every
      other slot and the error flag are as before. */
  function RouteTag(f: Fields, k: Key, v: Value): (g: Fields)
    ensures Read(g, SlotOf(k)) == Some(v)
    ensures forall s :: s != SlotOf(k) ==> Read(g, s) == Read(f, s)
    ensures g.error == f.error
  {
    match SlotOf(k)
    case SpanTypeSlot => f.(spanType := Some(v))
    case ResourceSlot => f.(resource := Some(v))
    case MetaSlot(_) => f.(meta := f.meta[k := v])
  }

  /** The slots and the error flag determine the fields, so the contract of
      RouteTag pins its result down completely. */
  lemma SlotsDetermineFields(f: Fields, g: Fields)
    requires f.error == g.error
    requires forall s :: Read(f, s) == Read(g, s)
    ensures f == g
  {
    assert Read(f, SpanTypeSlot) == Read(g, SpanTypeSlot);
    assert Read(f, ResourceSlot) == Read(g, ResourceSlot);
    forall k
      ensures (k in f.meta) == (k in g.meta) && (k in f.meta ==> f.meta[k] == g.meta[k])
    {
      assert Read(f, MetaSlot(k)) == Read(g, MetaSlot(k));
    }
    assert f.meta == g.meta;
  }

  /** get_tag reads back only the generic tags: a tag routed to a structural
      field is not visible through it. */
  lemma TagReadBack(f: Fields, k: Key, v: Value)
    ensures MetaGet(RouteTag(f, k, v), k) == if SlotOf(k).MetaSlot? then Some(v) else MetaGet(f, k)
  {
    if !SlotOf(k).MetaSlot? {
      assert MetaSlot(k) != SlotOf(k);
      assert Read(RouteTag(f, k, v), MetaSlot(k)) == Read(f, MetaSlot(k));
    }
  }

  /** What one log field turns into (ddtrace/opentracer/span.py:135-146). */
  datatype LogAction = MarkError | Mirror(tag: Key) | Ignore

  function ActionOf(field: (Key, Value)): (a: LogAction)
    ensures a == MarkError <==> field == (Name("event"), Str("error"))
    ensures a == Mirror(ErrorTypeTag) <==> field.0 == Name("error") || field.0 == Name("error.object")
    ensures a == Mirror(ErrorMsgTag) <==> field.0 == Name("message")
    ensures a == Mirror(ErrorStackTag) <==> field.0 == Name("stack")
    ensures a.Mirror? ==> a.tag in {ErrorTypeTag, ErrorMsgTag, ErrorStackTag}
  {
    var (k, v) := field;
    if k == Name("event") && v == Str("error") then MarkError
    else if k == Name("error") || k == Name("error.object") then Mirror(ErrorTypeTag)
    else if k == Name("message") then Mirror(ErrorMsgTag)
    else if k == Name("stack") then Mirror(ErrorStackTag)
    else Ignore
  }

  /** One iteration of the loop over key_values.items(). */
  function LogField(f: Fields, field: (Key, Value)): (g: Fields)
    ensures g.error == if ActionOf(field) == MarkError then 1 else f.error
    ensures forall s :: !IsLogSlot(s) ==> Read(g, s) == Read(f, s)
  {
    match ActionOf(field)
    case MarkError => RouteTag(f.(error := 1), Name("error"), Int(1))
    case Mirror(tag) => RouteTag(f, tag, field.1)
    case Ignore => f
  }

  /** The whole loop, applied to the fields in iteration order. */
  function ApplyLog(f: Fields, kvs: KeyValues): (g: Fields)
    ensures g.error == f.error || g.error == 1
    decreases |kvs|
  {
    if kvs == [] then f else LogField(ApplyLog(f, kvs[..|kvs| - 1]), kvs[|kvs| - 1])
  }

  /** The slots log_kv can write to: the generic 'error' tag and the three
      error tags. */
  predicate IsLogSlot(s: Slot) {
    s == MetaSlot(Name("error")) || s == MetaSlot(ErrorTypeTag)
    || s == MetaSlot(ErrorMsgTag) || s == MetaSlot(ErrorStackTag)
  }

  /** log_kv leaves span_type, resource and every generic tag other than the
      four log tags as they were. */
  lemma {:induction false} ApplyLogFrame(f: Fields, kvs: KeyValues)
    ensures forall s :: !IsLogSlot(s) ==> Read(ApplyLog(f, kvs), s) == Read(f, s)
    decreases |kvs|
  {
    if kvs != [] {
      ApplyLogFrame(f, kvs[..|kvs| - 1]);
    }
  }

  /** Some field of the mapping is event == 'error'. */
  predicate MarksError(kvs: KeyValues) {
    exists i :: 0 <= i < |kvs| && ActionOf(kvs[i]) == MarkError
  }

  lemma MarksErrorSnoc(kvs: KeyValues)
    requires kvs != []
    ensures MarksError(kvs) <==> MarksError(kvs[..|kvs| - 1]) || ActionOf(kvs[|kvs| - 1]) == MarkError
  {
    var p := kvs[..|kvs| - 1];
    assert forall i :: 0 <= i < |p| ==> p[i] == kvs[i];
    if MarksError(kvs) && ActionOf(kvs[|kvs| - 1]) != MarkError {
      var i :| 0 <= i < |kvs| && ActionOf(kvs[i]) == MarkError;
      assert ActionOf(p[i]) == MarkError;
    }
  }

  /** event == 'error' anywhere in the mapping sets the error flag to 1 and the
      generic tag 'error' to 1; otherwise both are as before. */
  lemma {:induction false} ApplyLogErrorFlag(f: Fields, kvs: KeyValues)
    ensures ApplyLog(f, kvs).error == if MarksError(kvs) then 1 else f.error
    ensures MetaGet(ApplyLog(f, kvs), Name("error")) == if MarksError(kvs) then Some(Int(1)) else MetaGet(f, Name("error"))
    decreases |kvs|
  {
    if kvs != [] {
      var p, last := kvs[..|kvs| - 1], kvs[|kvs| - 1];
      ApplyLogErrorFlag(f, p);
      MarksErrorSnoc(kvs);
      var g := ApplyLog(f, p);
      match ActionOf(last)
      case MarkError =>
      case Mirror(tag) =>
        assert MetaSlot(Name("error")) != SlotOf(tag);
        assert Read(RouteTag(g, tag, last.1), MetaSlot(Name("error"))) == Read(g, MetaSlot(Name("error")));
      case Ignore =>
    }
  }

  /** Field i of the mapping is mirrored onto tag. */
  predicate MirrorsAt(kvs: KeyValues, i: nat, tag: Key)
    requires i < |kvs|
  {
    ActionOf(kvs[i]) == Mirror(tag)
  }

  /** A field not mirrored onto an error tag leaves that tag alone. */
  lemma LogFieldKeepsTag(g: Fields, field: (Key, Value), tag: Key)
    requires tag == ErrorTypeTag || tag == ErrorMsgTag || tag == ErrorStackTag
    requires ActionOf(field) != Mirror(tag)
    ensures MetaGet(LogField(g, field), tag) == MetaGet(g, tag)
  {
    match ActionOf(field)
    case MarkError =>
      assert MetaSlot(tag) != SlotOf(Name("error"));
      assert Read(RouteTag(g.(error := 1), Name("error"), Int(1)), MetaSlot(tag)) == Read(g.(error := 1), MetaSlot(tag));
    case Mirror(t) =>
      assert MetaSlot(tag) != SlotOf(t);
      assert Read(RouteTag(g, t, field.1), MetaSlot(tag)) == Read(g, MetaSlot(tag));
    case Ignore =>
  }

  /** An error tag no field is mirrored onto keeps its value. */
  lemma {:induction false} ApplyLogUntouched(f: Fields, kvs: KeyValues, tag: Key)
    requires tag == ErrorTypeTag || tag == ErrorMsgTag || tag == ErrorStackTag
    requires forall i :: 0 <= i < |kvs| ==> !MirrorsAt(kvs, i, tag)
    ensures MetaGet(ApplyLog(f, kvs), tag) == MetaGet(f, tag)
    decreases |kvs|
  {
    if kvs != [] {
      var n := |kvs|;
      var p := kvs[..n - 1];
      assert forall i :: 0 <= i < |p| ==> p[i] == kvs[i];
      forall i | 0 <= i < |p|
        ensures !MirrorsAt(p, i, tag)
      {
        assert !MirrorsAt(kvs, i, tag);
      }
      ApplyLogUntouched(f, p, tag);
      assert !MirrorsAt(kvs, n - 1, tag);
      LogFieldKeepsTag(ApplyLog(f, p), kvs[n - 1], tag);
    }
  }

  /** Each error tag ends up holding the value of the LAST field mirrored onto
      it, in iteration order (so of 'error' and 'error.object', whichever comes
      later wins). */
  lemma {:induction false} ApplyLogLastWins(f: Fields, kvs: KeyValues, tag: Key, i: nat)
    requires tag == ErrorTypeTag || tag == ErrorMsgTag || tag == ErrorStackTag
    requires i < |kvs| && MirrorsAt(kvs, i, tag)
    requires forall j :: i < j < |kvs| ==> !MirrorsAt(kvs, j, tag)
    ensures MetaGet(ApplyLog(f, kvs), tag) == Some(kvs[i].1)
    decreases |kvs|
  {
    var n := |kvs|;
    var p := kvs[..n - 1];
    if i == n - 1 {
      assert ApplyLog(f, kvs) == RouteTag(ApplyLog(f, p), tag, kvs[i].1);
    } else {
      assert forall j :: 0 <= j < |p| ==> p[j] == kvs[j];
      assert MirrorsAt(p, i, tag);
      forall j | i < j < |p|
        ensures !MirrorsAt(p, j, tag)
      {
        assert !MirrorsAt(kvs, j, tag);
      }
      ApplyLogLastWins(f, p, tag, i);
      assert !MirrorsAt(kvs, n - 1, tag);
      LogFieldKeepsTag(ApplyLog(f, p), kvs[n - 1], tag);
    }
  }

  /** The generic tags a replay of baggage writes: the entries of bag with
      keys in done whose key routes to a generic tag. */
  function GenericEntries(bag: map<Key, Value>, done: set<Key>): map<Key, Value>
    requires done <= bag.Keys
  {
    map k | k in done && SlotOf(k).MetaSlot? :: bag[k]
  }

  /** g is what applying set_tag(k, bag[k]) for every k in done, in some
      order, to f gives. When both HTTP_URL and DB_STATEMENT are replayed,
      the resource holds one of the two values. */
  predicate Replayed(f: Fields, g: Fields, bag: map<Key, Value>, done: set<Key>)
    requires done <= bag.Keys
  {
    && g.error == f.error
    && g.spanType == (if SpanTypeTag in done then Some(bag[SpanTypeTag]) else f.spanType)
    && (if HttpUrlTag in done || DbStatementTag in done
        then (HttpUrlTag in done && g.resource == Some(bag[HttpUrlTag]))
             || (DbStatementTag in done && g.resource == Some(bag[DbStatementTag]))
        else g.resource == f.resource)
    && g.meta == f.meta + GenericEntries(bag, done)
  }

  lemma ReplayStart(f: Fields, bag: map<Key, Value>)
    ensures Replayed(f, f, bag, {})
  {
    assert GenericEntries(bag, {}) == map[];
    assert f.meta + map[] == f.meta;
  }

  /** Replaying one more entry extends a replay. */
  lemma ReplayStep(f: Fields, g: Fields, bag: map<Key, Value>, done: set<Key>, k: Key)
    requires done <= bag.Keys && k in bag && k !in done
    requires Replayed(f, g, bag, done)
    ensures Replayed(f, RouteTag(g, k, bag[k]), bag, done + {k})
  {
    var h := RouteTag(g, k, bag[k]);
    var done' := done + {k};
    if SlotOf(k).MetaSlot? {
      assert GenericEntries(bag, done') == GenericEntries(bag, done)[k := bag[k]];
      assert h.meta == g.meta[k := bag[k]];
      assert (f.meta + GenericEntries(bag, done))[k := bag[k]] == f.meta + GenericEntries(bag, done)[k := bag[k]];
    } else {
      assert GenericEntries(bag, done') == GenericEntries(bag, done);
    }
  }

  /** After a full replay every baggage entry is visible in the slot its key
      routes to, except when HTTP_URL and DB_STATEMENT compete for the
      resource. */
  lemma ReplayedShowsBaggage(f: Fields, g: Fields, bag: map<Key, Value>)
    requires Replayed(f, g, bag, bag.Keys)
    ensures forall k :: k in bag && !(k in {HttpUrlTag, DbStatementTag} && HttpUrlTag in bag && DbStatementTag in bag) ==>
              Read(g, SlotOf(k)) == Some(bag[k])
    ensures forall s :: (forall k :: k in bag ==> SlotOf(k) != s) ==> Read(g, s) == Read(f, s)
  {
    forall k | k in bag && SlotOf(k).MetaSlot?
      ensures MetaGet(g, k) == Some(bag[k])
    {
      assert k in GenericEntries(bag, bag.Keys);
    }
    forall s | (forall k :: k in bag ==> SlotOf(k) != s)
      ensures Read(g, s) == Read(f, s)
    {
      if s.MetaSlot? {
        assert s.key in bag ==> SlotOf(s.key) != s;
        assert s.key !in GenericEntries(bag, bag.Keys);
      }
    }
  }

  /** Order decides which of 'error' and 'error.object' sets ERROR_TYPE. */
  lemma ErrorTypeOrder(f: Fields, a: Value, b: Value)
    ensures MetaGet(ApplyLog(f, [(Name("error"), a), (Name("error.object"), b)]), ErrorTypeTag) == Some(b)
    ensures MetaGet(ApplyLog(f, [(Name("error.object"), b), (Name("error"), a)]), ErrorTypeTag) == Some(a)
  {
    var kvs1: KeyValues := [(Name("error"), a), (Name("error.object"), b)];
    var kvs2: KeyValues := [(Name("error.object"), b), (Name("error"), a)];
    assert kvs1[..1] == [(Name("error"), a)] && kvs2[..1] == [(Name("error.object"), b)];
  }
}
