/** Values shared by the OpenTracing span adapter and the Datadog span it drives. */
module Base {

  datatype Option<+T> = None | Some(value: T)

  datatype Result<+T, +E> = Ok(value: T) | Err(error: E)

  /** A Python object passed as a tag, baggage or log value. Only the kinds the
      adapter compares against or writes itself (the string 'error', the
      integer 1) are told apart; every other object is an opaque identity. */
  datatype Value = Str(s: string) | Int(n: int) | Obj(id: nat)

  /** A tag, baggage or log-field key. The six tag-name constants the adapter
      compares against (OTTags.SPAN_TYPE, OTTags.HTTP_URL, OTTags.DB_STATEMENT,
      errors.ERROR_TYPE, errors.ERROR_MSG, errors.ERROR_STACK) are constructors
      of their own, so they are pairwise distinct; Name(s) stands for a key
      string equal to none of them. */
  datatype Key =
    | SpanTypeTag
    | HttpUrlTag
    | DbStatementTag
    | ErrorTypeTag
    | ErrorMsgTag
    | ErrorStackTag
    | Name(s: string)

  /** A log_kv mapping, in the dictionary's iteration order. */
  type KeyValues = seq<(Key, Value)>

  /** A unix timestamp. */
  type Time = int

  /** The native tracer's own context (trace and span ids, sampling); opaque. */
  datatype DdContext = DdContext(id: nat)
}
