/** The root package's logger (logger.go). Its handler renames attributes with the same closure
    as the logger package, and its request builder is the same; its error builder differs: an
    unnamed group with the flat keys error.message and error.stack_trace, appended one after
    the other. */
module CegoLogger {
  import opened Wrappers
  import opened NetHttp
  import opened Slog
  import Logger

  const ErrorMessageKey: string := "error.message"
  const ErrorStackTraceKey: string := "error.stack_trace"

  /** The ReplaceAttr closure of NewLogger has the body of the logger package's closure: the
      three built-in keys are renamed, every other attribute passes through unchanged. */
  lemma ReplaceAttrIdentityElsewhere(groups: seq<string>, a: Attr)
    requires a.key != MessageKey && a.key != LevelKey && a.key != TimeKey
    ensures Logger.ReplaceAttr(groups, a) == Some(a)
  {
  }

  /** GetSlogAttrFromError for an error whose text is `message`; `stack` is debug.Stack().
      It carries the text and the stack of the logger package's builder under different names:
      that one nests them in a group named "error", this one flattens the group name into the
      keys. */
  method GetSlogAttrFromError(message: string, stack: string) returns (a: Attr)
    ensures a.key == "" && a.value.GroupValue?
    ensures Keys(a.value.attrs) == [ErrorMessageKey, ErrorStackTraceKey]
    ensures Find(a.value.attrs, ErrorMessageKey) == Some(StringValue(message))
    ensures Find(a.value.attrs, ErrorStackTraceKey) == Some(StringValue(stack))
    ensures var nested := Logger.GetSlogAttrFromError(message, stack);
      && Find(a.value.attrs, nested.key + "." + "message") == Find(nested.value.attrs, "message")
      && Find(a.value.attrs, nested.key + "." + "stack_trace") == Find(nested.value.attrs, "stack_trace")
  {
    var attrs: seq<Attr> := [];
    attrs := attrs + [Attr(ErrorMessageKey, StringValue(message))];
    attrs := attrs + [Attr(ErrorStackTraceKey, StringValue(stack))];
    a := Attr("", GroupValue(attrs));
  }

  /** GetSlogAttrFromRequest: line for line the logger package's builder. */
  method GetSlogAttrFromRequest(req: Request, clientIp: string) returns (a: Attr)
    ensures a == Attr("", GroupValue(Logger.RequestAttrs(req.header, clientIp)))
  {
    a := Logger.GetSlogAttrFromRequest(req, clientIp);
  }
}
