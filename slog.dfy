/** The log/slog values the loggers build. Two string values whose text comes from a library
    formatter are kept symbolic: the JSON encoding of a header map (json.Marshal) and the
    RFC 3339 rendering of an instant (time.RFC3339Nano). */
module Slog {
  import opened Wrappers
  import opened Headers

  datatype Value =
    | StringValue(text: string)
    | TimeValue(instant: int)             // a time.Time, as nanoseconds since the Unix epoch
    | GroupValue(attrs: seq<Attr>)
    | HeadersJson(header: Header)         // string(json.Marshal(header))
    | TimestampString(instant: int)       // instant.UTC().Format(time.RFC3339Nano)

  /** slog.Attr */
  datatype Attr = Attr(key: string, value: Value)

  /** The keys of the built-in attributes a handler passes to ReplaceAttr. */
  const MessageKey: string := "msg"
  const LevelKey: string := "level"
  const TimeKey: string := "time"

  /** The value of the first attribute with key `key`. */
  function Find(attrs: seq<Attr>, key: string): Option<Value> {
    if attrs == [] then None
    else if attrs[0].key == key then Some(attrs[0].value)
    else Find(attrs[1..], key)
  }

  /** The keys of `attrs`, in order. */
  function Keys(attrs: seq<Attr>): (ks: seq<string>)
    ensures |ks| == |attrs|
    ensures forall i | 0 <= i < |attrs| :: ks[i] == attrs[i].key
  {
    if attrs == [] then [] else [attrs[0].key] + Keys(attrs[1..])
  }
}
