/**
 * POST /api/divination/single: one line of commentary on one throw, from the
 * upstream model or, on any failure, from the fixed text bank.
 */
module SingleRoute {
  import opened Wrappers
  import opened Omens
  import opened Http

  /** The abort timer of the upstream call. */
  const TimeoutMs := 5000

  /** The request body; `result` is whatever string was sent (missing reads as absent from the bank). */
  datatype Request =
    | Unparseable
    | Body(result: string, index: int, complaint: Option<string>)

  /** `{ text }`; the text is absent when the model's JSON had no `text` field. */
  datatype Reply = Reply(text: Option<string>)

  const Manifesting := "神灵显化中，请稍候..."

  /** `getFallbackText`: the bank of the result, or the XIAO bank for any other string. */
  function FallbackText(result: string, pick: Pick): (text: string)
    ensures TextBank(result).Some? ==> text == TextBank(result).value[pick]
    ensures TextBank(result).None? ==> text == XiaoTexts[pick]
  {
    var texts := if TextBank(result).Some? then TextBank(result).value else TextBank(XIAO).value;
    texts[pick]
  }

  /** The decision tree of the handler; the upstream payload is the model's `text` field. */
  function Post(req: Request, apiKey: Option<string>, upstream: Upstream<Option<string>>, pick: Pick): (r: Response<Reply>)
    ensures r.status == 200
    ensures req.Unparseable? ==> r.body == Reply(Some(Manifesting))
    ensures req.Body? && KeyConfigured(apiKey) && Delivered(upstream, TimeoutMs) ==>
              r.body == Reply(upstream.payload.value)
    ensures req.Body? && !(KeyConfigured(apiKey) && Delivered(upstream, TimeoutMs)) ==>
              r.body.text.Some? && r.body.text.value in
                (if TextBank(req.result).Some? then TextBank(req.result).value else XiaoTexts)
  {
    match req
    case Unparseable => Response(200, Reply(Some(Manifesting)))
    case Body(result, _, _) =>
      if !KeyConfigured(apiKey) then Response(200, Reply(Some(FallbackText(result, pick))))
      else if Delivered(upstream, TimeoutMs) then Response(200, Reply(upstream.payload.value))
      else Response(200, Reply(Some(FallbackText(result, pick))))
  }

  /** Without a key the upstream is never consulted: its outcome cannot matter. */
  lemma NoKeyIgnoresUpstream(req: Request, apiKey: Option<string>, u1: Upstream<Option<string>>,
                             u2: Upstream<Option<string>>, pick: Pick)
    requires !KeyConfigured(apiKey)
    ensures Post(req, apiKey, u1, pick) == Post(req, apiKey, u2, pick)
  {
  }

  /** `!apiKey`: an empty key is no key at all. */
  lemma EmptyKeyIsNoKey(req: Request, upstream: Upstream<Option<string>>, pick: Pick)
    ensures Post(req, Some(""), upstream, pick) == Post(req, None, upstream, pick)
  {
  }

  /** The route's bank lookup and the page's agree on the three real outcomes. */
  lemma FallbackMatchesPage(c: Cast, pick: Pick)
    ensures FallbackText(Name(c), pick) == CastText(c, pick)
  {
  }

  /**
   * On the fallback path the text depends only on the result and the random draw:
   * the throw index and the complaint feed the prompt and nothing else.
   */
  lemma FallbackIgnoresIndexAndComplaint(
    result: string, i1: int, i2: int, c1: Option<string>, c2: Option<string>,
    apiKey: Option<string>, upstream: Upstream<Option<string>>, pick: Pick)
    requires !(KeyConfigured(apiKey) && Delivered(upstream, TimeoutMs))
    ensures Post(Body(result, i1, c1), apiKey, upstream, pick) == Post(Body(result, i2, c2), apiKey, upstream, pick)
  {
  }
}
