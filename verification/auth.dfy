/** The API-key gate of internal/middleware/auth.go. */
module Auth {
  import opened Wrappers

  const StatusUnauthorized: int := 401
  const StatusForbidden: int := 403

  /** What the middleware does with one request: hand it to the next handler, or write a JSON
      error body `{"error": message}` with the status and abort the chain. */
  datatype Decision = Next | Abort(status: int, message: string)

  /** The closure `APIKeyAuthMiddleware` returns; the expected key is read from `API_KEY` once,
      when the middleware is built. */
  datatype Gate = AllowAll | RequireKey(expected: string)

  /** Building the middleware from the configured key: an empty key allows everything. */
  function NewGate(apiKey: string): (g: Gate)
    ensures g.AllowAll? <==> apiKey == ""
    ensures g.RequireKey? ==> g.expected == apiKey
  {
    if apiKey == "" then AllowAll else RequireKey(apiKey)
  }

  /** The header value gin's `GetHeader` yields: a missing header reads as "". */
  function GetHeader(header: Option<string>): string
  {
    if header.Some? then header.value else ""
  }

  /** One request through the gate; the decision depends only on the gate and the
      `X-API-Key` header. */
  function Decide(g: Gate, header: Option<string>): (d: Decision)
    ensures g.AllowAll? ==> d == Next
    ensures g.RequireKey? ==>
              (d == Abort(StatusUnauthorized, "missing X-API-Key header") <==> GetHeader(header) == "")
    ensures g.RequireKey? ==>
              (d == Abort(StatusForbidden, "invalid API key") <==>
                 GetHeader(header) != "" && GetHeader(header) != g.expected)
    ensures g.RequireKey? ==> (d == Next <==> GetHeader(header) != "" && GetHeader(header) == g.expected)
  {
    match g
    case AllowAll => Next
    case RequireKey(expected) =>
      var apiKey := GetHeader(header);
      if apiKey == "" then Abort(StatusUnauthorized, "missing X-API-Key header")
      else if apiKey != expected then Abort(StatusForbidden, "invalid API key")
      else Next
  }

  /** The whole middleware, from configured key and header to decision: a request proceeds
      exactly when no key is configured or the header equals it; an empty or missing header is
      always 401 (never 403) when a key is configured; a wrong one is 403. */
  lemma AuthorizeOutcomes(apiKey: string, header: Option<string>)
    ensures var d := Decide(NewGate(apiKey), header);
      && (d == Next <==> apiKey == "" || GetHeader(header) == apiKey)
      && (d.Abort? ==> d.status == StatusUnauthorized || d.status == StatusForbidden)
      && (apiKey != "" && GetHeader(header) == "" ==> d == Abort(StatusUnauthorized, "missing X-API-Key header"))
      && (apiKey != "" && GetHeader(header) != "" && GetHeader(header) != apiKey ==>
            d == Abort(StatusForbidden, "invalid API key"))
  {
  }
}
