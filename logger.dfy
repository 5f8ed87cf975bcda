/**
 * The gRPC logging middleware: which log function a call is reported with,
 * how the reported code is refined, how the correlation id is found, and
 * the key-value arguments of the log line.
 *
 * Everything the interceptor learns from foreign code is an input: the
 * options' callbacks, the handler, `status.Code` of the error and of its
 * unwrapped error, `errors.Is(err, context.Canceled)`, `ctx.Err()`, the
 * elapsed time, the JSON encodings and a freshly generated correlation id.
 */
module GrpcLogger {
  import opened Wrappers
  import opened GrpcCodes

  /** The `Logger` method a line is written with. */
  datatype Level = Debugw | Infow | Warnw | Errorw

  /** The codes `getLogFunc` reports with `Warnw`. */
  const WarnCodes: set<Code> := {
    Canceled, InvalidArgument, DeadlineExceeded, NotFound, AlreadyExists, PermissionDenied,
    Unauthenticated, ResourceExhausted, FailedPrecondition, Aborted, OutOfRange
  }

  /**
   * `getLogFunc`, one branch per `case`: OK is informational, the
   * client-side codes are warnings, everything else (unlisted codes too) is
   * an error, and nothing is logged at debug level.
   */
  function LogLevel(code: Code): (l: Level)
    ensures l == Infow <==> code == OK
    ensures l == Warnw <==> code in WarnCodes
    ensures l == Errorw <==> code != OK && code !in WarnCodes
    ensures l != Debugw
  {
    if code == OK then Infow
    else if code == Canceled then Warnw
    else if code == Unknown then Errorw
    else if code == InvalidArgument then Warnw
    else if code == DeadlineExceeded then Warnw
    else if code == NotFound then Warnw
    else if code == AlreadyExists then Warnw
    else if code == PermissionDenied then Warnw
    else if code == Unauthenticated then Warnw
    else if code == ResourceExhausted then Warnw
    else if code == FailedPrecondition then Warnw
    else if code == Aborted then Warnw
    else if code == OutOfRange then Warnw
    else if code == Unimplemented then Errorw
    else if code == Internal then Errorw
    else if code == Unavailable then Errorw
    else if code == DataLoss then Errorw
    else Errorw
  }

  // ---------------------------------------------------------------------
  // Correlation id
  // ---------------------------------------------------------------------

  const CorrelationKey: string := "x-correlation-id"

  /**
   * The parts of a `context.Context` the middleware looks at: the incoming
   * metadata (`None` when there is none) and the correlation value stored
   * under `XCorrelationID` (`None` when it is absent or not a string).
   */
  datatype Ctx = Ctx(metadata: Option<map<string, seq<string>>>, correlationId: Option<string>)

  /** `utils.GetCorrelationID`: the stored id, otherwise a newly generated one. */
  function GetCorrelationId(ctx: Ctx, generated: string): (id: string)
    ensures ctx.correlationId.Some? ==> id == ctx.correlationId.value
    ensures ctx.correlationId.None? ==> id == generated
  {
    ctx.correlationId.GetOr(generated)
  }

  /**
   * `detectAndInjectCorrelationID`: the derived context is the given one
   * with only its correlation value replaced by the returned id.
   */
  function DetectAndInjectCorrelationId(ctx: Ctx, generated: string): (r: (Ctx, string))
    ensures r.0 == ctx.(correlationId := Some(r.1))
  {
    var id :=
      if ctx.metadata.None? then ""
      else if CorrelationKey in ctx.metadata.value && |ctx.metadata.value[CorrelationKey]| > 0
        then ctx.metadata.value[CorrelationKey][0]
      else GetCorrelationId(ctx, generated);
    (ctx.(correlationId := Some(id)), id)
  }

  /**
   * The id is the first header value when there is one, else the context's
   * (or a fresh) id, and empty without incoming metadata; the derived
   * context carries it and keeps the metadata.
   */
  lemma CorrelationIdChoice(ctx: Ctx, generated: string)
    ensures var (out, id) := DetectAndInjectCorrelationId(ctx, generated);
      && out.correlationId == Some(id) && out.metadata == ctx.metadata
      && (ctx.metadata.None? ==> id == "")
      && ((ctx.metadata.Some? && CorrelationKey in ctx.metadata.value && |ctx.metadata.value[CorrelationKey]| > 0)
            ==> id == ctx.metadata.value[CorrelationKey][0])
      && ((ctx.metadata.Some? && (CorrelationKey !in ctx.metadata.value || ctx.metadata.value[CorrelationKey] == []))
            ==> id == (if ctx.correlationId.Some? then ctx.correlationId.value else generated))
  {
  }

  /**
   * Detecting again on the derived context finds the same id and derives the
   * same context, whatever id would be generated the second time.
   */
  lemma CorrelationIdStable(ctx: Ctx, generated: string, generated2: string)
    ensures var (out, id) := DetectAndInjectCorrelationId(ctx, generated);
      DetectAndInjectCorrelationId(out, generated2) == (out, id)
  {
  }

  // ---------------------------------------------------------------------
  // Service and method names
  // ---------------------------------------------------------------------

  /** The index of the last '/', or -1. */
  function LastSlash(s: string): (k: int)
    ensures -1 <= k < |s|
    ensures k >= 0 ==> s[k] == '/'
    ensures forall j :: k < j < |s| ==> s[j] != '/'
    decreases |s|
  {
    if |s| == 0 then -1
    else if s[|s| - 1] == '/' then |s| - 1
    else LastSlash(s[..|s| - 1])
  }

  /** A path element `path.Clean` leaves alone. */
  predicate PlainName(x: string) {
    |x| > 0 && '/' !in x && x != "." && x != ".."
  }

  /**
   * A gRPC full method name `/service/method`. On these, `path.Dir` is the
   * part before the last '/' and `path.Base` the part after it.
   */
  predicate CleanFullMethod(fm: string) {
    && |fm| > 0 && fm[0] == '/'
    && 1 < LastSlash(fm) < |fm| - 1
    && PlainName(fm[1..LastSlash(fm)])
  }

  /** `path.Dir(fullMethod)[1:]`. */
  function Service(fm: string): string
    requires CleanFullMethod(fm)
  {
    fm[1..LastSlash(fm)]
  }

  /** `path.Base(fullMethod)`. */
  function Method(fm: string): string
    requires CleanFullMethod(fm)
  {
    fm[LastSlash(fm) + 1..]
  }

  /** `/service/method` splits back into service and method. */
  lemma SplitFullMethod(serviceName: string, methodName: string)
    requires PlainName(serviceName) && PlainName(methodName)
    ensures CleanFullMethod("/" + serviceName + "/" + methodName)
    ensures Service("/" + serviceName + "/" + methodName) == serviceName
    ensures Method("/" + serviceName + "/" + methodName) == methodName
  {
    var fm := "/" + serviceName + "/" + methodName;
    var k := 1 + |serviceName|;
    assert fm[k] == '/';
    forall j | k < j < |fm| ensures fm[j] != '/' {
      assert fm[j] == methodName[j - k - 1];
    }
    assert LastSlash(fm) == k;
    assert fm[1..k] == serviceName;
    assert fm[k + 1..] == methodName;
  }

  /** The health check's full method name is one of them. */
  lemma HealthCheckSplits()
    ensures CleanFullMethod(HealthCheck)
    ensures Service(HealthCheck) == "grpc.health.v1.Health" && Method(HealthCheck) == "Check"
  {
    assert HealthCheck == "/" + "grpc.health.v1.Health" + "/" + "Check";
    SplitFullMethod("grpc.health.v1.Health", "Check");
  }

  const HealthCheck: string := "/grpc.health.v1.Health/Check"

  // ---------------------------------------------------------------------
  // Code refinement and level
  // ---------------------------------------------------------------------

  /**
   * A handler error as the middleware sees it: its text, `status.Code(err)`,
   * `status.Code` of `errors.Unwrap(err)` (`None` when that is nil),
   * whether `errors.Is(err, context.Canceled)`, and the encoded status
   * details (`None` when it is no status or has none).
   */
  datatype GoError = GoError(text: string, code: Code, unwrapped: Option<Code>, canceled: bool, details: Option<string>)

  /** `status.Code`: OK for nil. */
  function StatusCode(err: Option<GoError>): Code {
    if err.None? then OK else err.value.code
  }

  /** `status.Code(errors.Unwrap(err))`: OK when there is nothing to unwrap. */
  function UnwrappedCode(err: Option<GoError>): Code {
    if err.None? || err.value.unwrapped.None? then OK else err.value.unwrapped.value
  }

  /**
   * The code the interceptor reports, after its two refinements: it stays
   * Unknown only when the error and its unwrapped error are both Unknown,
   * and it is Canceled only when one of those is, or when the error is a
   * cancellation and so is the context.
   */
  function RefinedCode(err: Option<GoError>, ctxCanceled: bool): (c: Code)
    ensures c == Unknown ==> StatusCode(err) == Unknown && UnwrappedCode(err) == Unknown
    ensures c == Canceled ==>
      || StatusCode(err) == Canceled || UnwrappedCode(err) == Canceled
      || (err.Some? && err.value.canceled && ctxCanceled)
  {
    var code := StatusCode(err);
    var code := if code == Unknown then UnwrappedCode(err) else code;
    if code == Unknown && err.Some? && err.value.canceled && ctxCanceled then Canceled else code
  }

  /** A known code is reported as is; no error is OK. */
  lemma RefinedKnownCode(err: Option<GoError>, ctxCanceled: bool)
    requires StatusCode(err) != Unknown
    ensures RefinedCode(err, ctxCanceled) == StatusCode(err)
    ensures err.None? ==> RefinedCode(err, ctxCanceled) == OK
  {
  }

  /**
   * An Unknown code is replaced by the wrapped error's code; when that is
   * Unknown too, a cancellation seen by both the error and the context
   * becomes Canceled. An error with nothing to unwrap is reported as OK,
   * because `status.Code(nil)` is OK.
   */
  lemma RefinedUnknownCode(e: GoError, ctxCanceled: bool)
    requires e.code == Unknown
    ensures e.unwrapped.None? ==> RefinedCode(Some(e), ctxCanceled) == OK
    ensures e.unwrapped.Some? && e.unwrapped.value != Unknown ==> RefinedCode(Some(e), ctxCanceled) == e.unwrapped.value
    ensures e.unwrapped == Some(Unknown) ==>
      RefinedCode(Some(e), ctxCanceled) == (if e.canceled && ctxCanceled then Canceled else Unknown)
  {
  }

  /** `Canceled` is reported only for a status Canceled, or for an Unknown cancellation seen by the context. */
  lemma RefinedCanceled(err: Option<GoError>, ctxCanceled: bool)
    ensures RefinedCode(err, ctxCanceled) == Canceled <==>
      || StatusCode(err) == Canceled
      || (StatusCode(err) == Unknown && UnwrappedCode(err) == Canceled)
      || (StatusCode(err) == Unknown && UnwrappedCode(err) == Unknown && err.value.canceled && ctxCanceled)
  {
  }

  /** The log function: `getLogFunc`, except that a successful health check is logged at debug level. */
  function EntryLevel(code: Code, serviceName: string, methodName: string): Level {
    if code == OK && methodName == "Check" && serviceName == "grpc.health.v1.Health" then Debugw else LogLevel(code)
  }

  /** Only a successful health check is logged at debug level; every other call keeps `getLogFunc`'s level. */
  lemma EntryLevelDebug(code: Code, serviceName: string, methodName: string)
    ensures EntryLevel(code, serviceName, methodName) == Debugw
      <==> code == OK && serviceName == "grpc.health.v1.Health" && methodName == "Check"
    ensures EntryLevel(code, serviceName, methodName) != Debugw ==> EntryLevel(code, serviceName, methodName) == LogLevel(code)
  {
  }

  // ---------------------------------------------------------------------
  // The interceptor
  // ---------------------------------------------------------------------

  /** `grpc.UnaryServerInfo`. */
  datatype ServerInfo = ServerInfo(fullMethod: string)

  /** What the handler receives in the request position. */
  datatype Payload<R> = Req(req: R) | InfoAsReq(info: ServerInfo)

  /** A log argument (`interface{}`). */
  datatype LogArg = Key(name: string) | CodeVal(code: Code) | IntVal(n: int) | StrVal(s: string) | RawJson(json: string)

  /** One log call: the function chosen, its message template and its key-value arguments. */
  datatype LogEntry = LogEntry(level: Level, template: string, args: seq<LogArg>)

  /** The merged `Options`. */
  datatype Options = Options(
    skipper: (Ctx, ServerInfo) -> bool,
    includeRequest: (Ctx, ServerInfo) -> bool,
    includeResponse: (Ctx, ServerInfo) -> bool,
    includeCustom: (Ctx, ServerInfo) -> seq<LogArg>)

  /** What the interceptor observes from the clock, the context and the id generator. */
  datatype Observed = Observed(generatedId: string, latencyMs: int, ctxCanceled: bool)

  /** The facts one log line reports. */
  datatype Record = Record(
    code: Code, latencyMs: int, serviceName: string, methodName: string, extras: seq<LogArg>,
    request: Option<string>, response: Option<string>, correlationId: string, err: Option<GoError>)

  /** The four leading pairs. */
  function Header(r: Record): seq<LogArg> {
    [Key("code"), CodeVal(r.code), Key("latency_ms"), IntVal(r.latencyMs),
     Key("service"), StrVal(r.serviceName), Key("method"), StrVal(r.methodName)]
  }

  /** An optional pair: the key and the encoded value, or nothing. */
  function Pair(key: string, v: Option<string>): (r: seq<LogArg>)
    ensures |r| == if v.Some? then 2 else 0
    ensures v.Some? ==> r[0] == Key(key) && r[1] == RawJson(v.value)
  {
    if v.Some? then [Key(key), RawJson(v.value)] else []
  }

  /** The error pairs: the text, then the status details when there are any. */
  function ErrorArgs(err: Option<GoError>): (r: seq<LogArg>)
    ensures |r| == if err.None? then 0 else if err.value.details.None? then 2 else 4
    ensures err.Some? ==> r[0] == Key("error") && r[1] == StrVal(err.value.text)
    ensures err.Some? && err.value.details.Some? ==> r[2] == Key("details") && r[3] == RawJson(err.value.details.value)
  {
    if err.None? then []
    else [Key("error"), StrVal(err.value.text)] + Pair("details", err.value.details)
  }

  /** The arguments of the log line, in the order the interceptor appends them. */
  function LogArgs(r: Record): seq<LogArg> {
    Header(r) + r.extras + Pair("request", r.request) + Pair("response", r.response)
      + [Key("correlation_id"), StrVal(r.correlationId)] + ErrorArgs(r.err)
  }

  /**
   * The layout of a log line: code, latency, service and method first, then
   * the custom pairs, the request and the response when they are included,
   * the correlation id, and the error text and status details exactly when
   * there are any.
   */
  lemma LogArgsLayout(r: Record)
    ensures var args := LogArgs(r);
      var c := 8 + |r.extras| + (if r.request.Some? then 2 else 0) + (if r.response.Some? then 2 else 0);
      && |args| == c + 2 + (if r.err.None? then 0 else if r.err.value.details.None? then 2 else 4)
      && args[0] == Key("code") && args[1] == CodeVal(r.code)
      && args[2] == Key("latency_ms") && args[3] == IntVal(r.latencyMs)
      && args[4] == Key("service") && args[5] == StrVal(r.serviceName)
      && args[6] == Key("method") && args[7] == StrVal(r.methodName)
      && args[8..8 + |r.extras|] == r.extras
      && (r.request.Some? ==> args[8 + |r.extras|] == Key("request") && args[9 + |r.extras|] == RawJson(r.request.value))
      && (r.response.Some? ==> args[c - 2] == Key("response") && args[c - 1] == RawJson(r.response.value))
      && args[c] == Key("correlation_id") && args[c + 1] == StrVal(r.correlationId)
      && (r.err.Some? ==> args[c + 2] == Key("error") && args[c + 3] == StrVal(r.err.value.text))
      && (r.err.Some? && r.err.value.details.Some? ==>
            args[c + 4] == Key("details") && args[c + 5] == RawJson(r.err.value.details.value))
  {
    LogArgsFront(r);
    LogArgsBack(r);
    var args := LogArgs(r);
    var n := 8 + |r.extras|;
    assert args[..n] == Header(r) + r.extras;
    assert args[0] == args[..n][0] && args[1] == args[..n][1] && args[2] == args[..n][2] && args[3] == args[..n][3];
    assert args[4] == args[..n][4] && args[5] == args[..n][5] && args[6] == args[..n][6] && args[7] == args[..n][7];
    assert args[8..n] == args[..n][8..];
    var q, c := |Pair("request", r.request)|, n + |Pair("request", r.request)| + |Pair("response", r.response)|;
    var middle, tail := Pair("request", r.request) + Pair("response", r.response), [Key("correlation_id"), StrVal(r.correlationId)] + ErrorArgs(r.err);
    assert args[n..c] == middle && args[c..] == tail;
    if r.request.Some? {
      assert args[n] == middle[0] && args[n + 1] == middle[1];
    }
    if r.response.Some? {
      assert args[c - 2] == middle[q] && args[c - 1] == middle[q + 1];
    }
    assert args[c] == tail[0] && args[c + 1] == tail[1];
    if r.err.Some? {
      assert args[c + 2] == tail[2] && args[c + 3] == tail[3];
      if r.err.value.details.Some? {
        assert args[c + 4] == tail[4] && args[c + 5] == tail[5];
      }
    }
  }

  /** The header and the custom pairs open the line. */
  lemma LogArgsFront(r: Record)
    ensures |LogArgs(r)| >= 8 + |r.extras|
    ensures LogArgs(r)[..8 + |r.extras|] == Header(r) + r.extras
  {
    var a := Header(r) + r.extras;
    var rest := Pair("request", r.request) + Pair("response", r.response)
      + [Key("correlation_id"), StrVal(r.correlationId)] + ErrorArgs(r.err);
    assert LogArgs(r) == a + rest;
  }

  /** After them come the request and response pairs, then the correlation id and the error pairs. */
  lemma LogArgsBack(r: Record)
    ensures var n := 8 + |r.extras|;
      var c := n + |Pair("request", r.request)| + |Pair("response", r.response)|;
      && |LogArgs(r)| == c + 2 + |ErrorArgs(r.err)|
      && LogArgs(r)[n..c] == Pair("request", r.request) + Pair("response", r.response)
      && LogArgs(r)[c..] == [Key("correlation_id"), StrVal(r.correlationId)] + ErrorArgs(r.err)
  {
    var a := Header(r) + r.extras;
    var m := Pair("request", r.request) + Pair("response", r.response);
    var t := [Key("correlation_id"), StrVal(r.correlationId)] + ErrorArgs(r.err);
    assert LogArgs(r) == a + m + t;
  }

  /** The line the interceptor writes for a call it does not skip. */
  function Entry<R, S>(opts: Options, ctx: Ctx, req: R, info: ServerInfo, resp: S, err: Option<GoError>,
                       obs: Observed, marshalReq: R -> string, marshalResp: S -> string): LogEntry
    requires CleanFullMethod(info.fullMethod)
  {
    var (ictx, id) := DetectAndInjectCorrelationId(ctx, obs.generatedId);
    var code := RefinedCode(err, obs.ctxCanceled);
    var serviceName, methodName := Service(info.fullMethod), Method(info.fullMethod);
    LogEntry(EntryLevel(code, serviceName, methodName), "",
      LogArgs(Record(code, obs.latencyMs, serviceName, methodName, opts.includeCustom(ictx, info),
        if opts.includeRequest(ictx, info) then Some(marshalReq(req)) else None,
        if opts.includeResponse(ictx, info) then Some(marshalResp(resp)) else None,
        id, err)))
  }

  /** The successive `append`s that build the log arguments. */
  method AppendArgs(rec: Record) returns (args: seq<LogArg>)
    ensures args == LogArgs(rec)
  {
    args := [];
    args := args + [Key("code"), CodeVal(rec.code), Key("latency_ms"), IntVal(rec.latencyMs),
                    Key("service"), StrVal(rec.serviceName), Key("method"), StrVal(rec.methodName)];
    assert args == Header(rec);
    if |rec.extras| > 0 {
      args := args + rec.extras;
    }
    assert args == Header(rec) + rec.extras;
    if rec.request.Some? {
      args := args + [Key("request"), RawJson(rec.request.value)];
    }
    assert args == Header(rec) + rec.extras + Pair("request", rec.request);
    if rec.response.Some? {
      args := args + [Key("response"), RawJson(rec.response.value)];
    }
    assert args == Header(rec) + rec.extras + Pair("request", rec.request) + Pair("response", rec.response);
    args := args + [Key("correlation_id"), StrVal(rec.correlationId)];
    ghost var front := args;
    if rec.err.Some? {
      args := args + [Key("error"), StrVal(rec.err.value.text)];
      if rec.err.value.details.Some? {
        args := args + [Key("details"), RawJson(rec.err.value.details.value)];
      }
    }
    assert args == front + ErrorArgs(rec.err);
  }

  /**
   * The closure `UnaryServerInterceptor` returns, for one call. A skipped
   * call reaches the handler with the server info in the request position
   * and is not logged; any other call reaches it with the correlation id
   * in its context and is logged once. The handler's answer is returned
   * unchanged either way.
   */
  method Intercept<R, S>(opts: Options, ctx: Ctx, req: R, info: ServerInfo,
                         handler: (Ctx, Payload<R>) -> (S, Option<GoError>),
                         obs: Observed, marshalReq: R -> string, marshalResp: S -> string)
    returns (resp: S, err: Option<GoError>, entry: Option<LogEntry>)
    requires !opts.skipper(ctx, info) ==> CleanFullMethod(info.fullMethod)
    ensures opts.skipper(ctx, info) ==> (resp, err) == handler(ctx, InfoAsReq(info)) && entry.None?
    ensures !opts.skipper(ctx, info) ==>
      && (resp, err) == handler(DetectAndInjectCorrelationId(ctx, obs.generatedId).0, Req(req))
      && entry == Some(Entry(opts, ctx, req, info, resp, err, obs, marshalReq, marshalResp))
  {
    if opts.skipper(ctx, info) {
      var (r, e) := handler(ctx, InfoAsReq(info));
      return r, e, None;
    }
    var (ictx, correlationId) := DetectAndInjectCorrelationId(ctx, obs.generatedId);
    var logReq := opts.includeRequest(ictx, info);
    var logResp := opts.includeResponse(ictx, info);
    var (r, e) := handler(ictx, Req(req));
    resp, err := r, e;
    var serviceName := Service(info.fullMethod);
    var methodName := Method(info.fullMethod);

    var code := StatusCode(err);
    if code == Unknown {
      code := UnwrappedCode(err);
    }
    if code == Unknown && err.Some? && err.value.canceled && obs.ctxCanceled {
      code := Canceled;
    }
    assert code == RefinedCode(err, obs.ctxCanceled);

    var logFn := LogLevel(code);
    if code == OK && methodName == "Check" && serviceName == "grpc.health.v1.Health" {
      logFn := Debugw;
    }
    assert logFn == EntryLevel(code, serviceName, methodName);

    var extras := opts.includeCustom(ictx, info);
    var request := if logReq then Some(marshalReq(req)) else None;
    var response := if logResp then Some(marshalResp(resp)) else None;
    var args := AppendArgs(Record(code, obs.latencyMs, serviceName, methodName, extras, request, response, correlationId, err));
    entry := Some(LogEntry(logFn, "", args));
  }

  /** A successful health check is logged at debug level with code OK; a failed one at `getLogFunc`'s level. */
  lemma HealthCheckEntry<R, S>(opts: Options, ctx: Ctx, req: R, resp: S, err: Option<GoError>,
                               obs: Observed, marshalReq: R -> string, marshalResp: S -> string)
    ensures CleanFullMethod(HealthCheck)
    ensures var e := Entry(opts, ctx, req, ServerInfo(HealthCheck), resp, err, obs, marshalReq, marshalResp);
      var code := RefinedCode(err, obs.ctxCanceled);
      && e.args[1] == CodeVal(code)
      && (code == OK ==> e.level == Debugw)
      && (code != OK ==> e.level == LogLevel(code) && e.level != Debugw)
  {
    HealthCheckSplits();
    var e := Entry(opts, ctx, req, ServerInfo(HealthCheck), resp, err, obs, marshalReq, marshalResp);
    var (ictx, id) := DetectAndInjectCorrelationId(ctx, obs.generatedId);
    var code := RefinedCode(err, obs.ctxCanceled);
    LogArgsLayout(Record(code, obs.latencyMs, "grpc.health.v1.Health", "Check", opts.includeCustom(ictx, ServerInfo(HealthCheck)),
      if opts.includeRequest(ictx, ServerInfo(HealthCheck)) then Some(marshalReq(req)) else None,
      if opts.includeResponse(ictx, ServerInfo(HealthCheck)) then Some(marshalResp(resp)) else None,
      id, err));
  }
}
