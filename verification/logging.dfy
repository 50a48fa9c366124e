/** The log record `JSONLoggingMiddleware` of internal/middleware/logging.go derives for one
    request. The clock (timestamp, duration) is an input; writing the JSON line is left out. */
module Logging {

  /** A value stored in gin's per-request context under some key. */
  datatype ContextValue = Str(s: string) | NonString

  /** The request as the middleware sees it. */
  datatype Request = Request(httpMethod: string, path: string, host: string)

  /** The state of the gin context after the downstream handlers ran: the request (which a
      handler may have replaced), the status written, the matched route pattern ("" when no
      route matched) and the context's key/value entries. */
  datatype Handled = Handled(request: Request, status: int, fullPath: string,
                             keys: map<string, ContextValue>)

  /** The fields of `LogEntry`; `userId` is "" when omitted (`omitempty`). */
  datatype LogEntry = LogEntry(
    timestamp: string,
    durationMs: int,
    level: string,
    httpMethod: string,
    status: int,
    route: string,
    message: string,
    serverAddress: string,
    host: string,
    userId: string)

  const RequestMessage: string := "Incoming request:"

  /** Severity order of the three levels. */
  function Severity(level: string): nat
  {
    if level == "info" then 0 else if level == "warn" then 1 else 2
  }

  /** The level: "info" below 400, "warn" for 4xx, "error" from 500 on; exactly one of them. */
  function LogLevel(status: int): (level: string)
    ensures level == "info" <==> status < 400
    ensures level == "warn" <==> 400 <= status < 500
    ensures level == "error" <==> status >= 500
  {
    if 400 <= status < 500 then "warn" else if status >= 500 then "error" else "info"
  }

  /** A larger status never gets a milder level. */
  lemma LogLevelMonotone(s1: int, s2: int)
    requires s1 <= s2
    ensures Severity(LogLevel(s1)) <= Severity(LogLevel(s2))
  {
  }

  /** The `user_id` logged: the context entry when it is a string, else "". */
  function UserId(keys: map<string, ContextValue>): (uid: string)
    ensures uid != "" <==> "user_id" in keys && keys["user_id"].Str? && keys["user_id"].s != ""
    ensures uid != "" ==> uid == keys["user_id"].s
  {
    if "user_id" in keys && keys["user_id"].Str? then keys["user_id"].s else ""
  }

  /** The logged route: the matched pattern, or the raw path when none matched. */
  function Route(fullPath: string, path: string): (route: string)
    ensures fullPath != "" ==> route == fullPath
    ensures fullPath == "" ==> route == path
  {
    if fullPath == "" then path else fullPath
  }

  /** One request through the middleware: method and path are taken before `next` runs; status,
      route, user id and host are read from the context after it. */
  function LogRecord(req: Request, next: Request -> Handled, timestamp: string, durationMs: int)
    : (e: LogEntry)
    ensures e.httpMethod == req.httpMethod && e.serverAddress == req.path
    ensures e.message == RequestMessage
    ensures e.status == next(req).status
    ensures e.level == LogLevel(next(req).status)
    ensures e.route == (if next(req).fullPath != "" then next(req).fullPath else req.path)
    ensures e.host == next(req).request.host
    ensures e.userId != "" <==>
              "user_id" in next(req).keys && next(req).keys["user_id"] != Str("") &&
              next(req).keys["user_id"].Str?
    ensures e.userId == UserId(next(req).keys)
    ensures e.timestamp == timestamp && e.durationMs == durationMs
  {
    var path := req.path;
    var httpMethod := req.httpMethod;
    var after := next(req);
    var userId := UserId(after.keys);
    var route := Route(after.fullPath, path);
    LogEntry(timestamp, durationMs, LogLevel(after.status), httpMethod, after.status, route,
             RequestMessage, path, after.request.host, userId)
  }
}

/** The two middlewares as `cmd/main.go` chains them: logging outside, the API-key gate inside. */
module MiddlewareChain {
  import opened Wrappers
  import Auth
  import opened Logging

  /** A request the gate rejects is still logged, at level "warn", with the gate's status. */
  lemma RejectedRequestIsLoggedAsWarning(apiKey: string, header: Option<string>, req: Request,
                                         next: Request -> Handled, timestamp: string, durationMs: int)
    requires Auth.Decide(Auth.NewGate(apiKey), header).Abort?
    requires next(req).status == Auth.Decide(Auth.NewGate(apiKey), header).status
    ensures LogRecord(req, next, timestamp, durationMs).level == "warn"
    ensures apiKey != ""
  {
  }
}
