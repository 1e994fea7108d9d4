/**
 * What the three API routes see of the outside world: the configured API key and the
 * one call to the upstream text-generation service, reduced to its observable outcome.
 */
module Http {
  import opened Wrappers

  /**
   * The outcome of the upstream `fetch`: it never answered (a transport error), or it
   * answered after `elapsedMs` with an HTTP `status`, and `payload` is the JSON object
   * the model produced, or None when `data.choices[0].message.content` is missing or
   * is not valid JSON.
   */
  datatype Upstream<P> = Unreachable | Replied(elapsedMs: nat, status: int, payload: Option<P>)

  /**
   * The route gets a usable payload: the response came before the abort timer fired,
   * `response.ok` held (a 2xx status) and the content parsed.
   */
  predicate Delivered<P>(u: Upstream<P>, timeoutMs: nat)
    ensures u.Unreachable? ==> !Delivered(u, timeoutMs)
    ensures u.Replied? && u.elapsedMs >= timeoutMs ==> !Delivered(u, timeoutMs)
    ensures u.Replied? && !(200 <= u.status <= 299) ==> !Delivered(u, timeoutMs)
    ensures u.Replied? && u.payload.None? ==> !Delivered(u, timeoutMs)
    ensures Delivered(u, timeoutMs) ==> u.payload.Some?
  {
    u.Replied? && u.elapsedMs < timeoutMs && 200 <= u.status <= 299 && u.payload.Some?
  }

  /** `if (!apiKey)`: an unset variable and the empty string are both missing. */
  predicate KeyConfigured(apiKey: Option<string>)
    ensures KeyConfigured(apiKey) <==> apiKey != None && apiKey != Some("")
  {
    apiKey.Some? && apiKey.value != ""
  }

  /** `Response.json(body, {status})`; the default status is 200. */
  datatype Response<B> = Response(status: int, body: B)
}
