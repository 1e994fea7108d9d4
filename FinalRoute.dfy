/**
 * POST /api/divination/final: turns the three throw results into a verdict card,
 * asking the upstream model first and falling back to the counting rule.
 */
module FinalRoute {
  import opened Wrappers
  import opened Omens
  import opened Http

  /** The abort timer of the upstream call. */
  const TimeoutMs := 10000

  /** The request body: unparseable JSON, or the two fields the route reads. */
  datatype Request =
    | Unparseable
    | Body(complaint: Option<string>, divinationResults: Option<seq<string>>)

  /**
   * The JSON body of the answer: an error, a card the route built itself, or the
   * upstream model's object passed on unchecked.
   */
  datatype Reply = Error(error: string) | CardReply(card: Card) | Forwarded(answer: ServedCard)

  const NeedThreeResults := "需要三次掷茭结果"

  /** The request carries exactly three results. */
  predicate WellShaped(req: Request)
    requires req.Body?
  {
    req.divinationResults.Some? && |req.divinationResults.value| == 3
  }

  /** The decision tree of the handler. */
  function Post(req: Request, apiKey: Option<string>, upstream: Upstream<ServedCard>): (r: Response<Reply>)
    ensures r.status == 400 <==> req.Body? && !WellShaped(req)
    ensures r.status == 400 ==> r.body == Error(NeedThreeResults)
    ensures r.status != 400 ==> r.status == 200 && !r.body.Error?
    ensures req.Unparseable? ==> r.body == CardReply(EmergencyCard)
    ensures req.Body? && WellShaped(req) && !(KeyConfigured(apiKey) && Delivered(upstream, TimeoutMs)) ==>
              r.body == CardReply(FallbackFinalCard(req.divinationResults.value))
    ensures req.Body? && WellShaped(req) && KeyConfigured(apiKey) && Delivered(upstream, TimeoutMs) ==>
              r.body == Forwarded(upstream.payload.value)
  {
    match req
    case Unparseable => Response(200, CardReply(EmergencyCard))
    case Body(_, results) =>
      if results.None? || |results.value| != 3 then Response(400, Error(NeedThreeResults))
      else if !KeyConfigured(apiKey) then Response(200, CardReply(FallbackFinalCard(results.value)))
      else if Delivered(upstream, TimeoutMs) then Response(200, Forwarded(upstream.payload.value))
      else Response(200, CardReply(FallbackFinalCard(results.value)))
  }

  /** Without a key the upstream is never consulted: its outcome cannot matter. */
  lemma NoKeyIgnoresUpstream(req: Request, apiKey: Option<string>, u1: Upstream<ServedCard>, u2: Upstream<ServedCard>)
    requires !KeyConfigured(apiKey)
    ensures Post(req, apiKey, u1) == Post(req, apiKey, u2)
  {
  }

  /** `!apiKey`: an empty key is no key at all. */
  lemma EmptyKeyIsNoKey(req: Request, upstream: Upstream<ServedCard>)
    ensures Post(req, Some(""), upstream) == Post(req, None, upstream)
  {
  }

  /**
   * On every fallback path the card is one whole row of the fallback table, and its
   * verdict is the counting rule's: never a field of one row mixed with another.
   */
  lemma FallbackCardIsWhole(req: Request, apiKey: Option<string>, upstream: Upstream<ServedCard>)
    requires req.Body? && WellShaped(req)
    requires !KeyConfigured(apiKey) || !Delivered(upstream, TimeoutMs)
    ensures Post(req, apiKey, upstream).body.card == FallbackTable(Classify(req.divinationResults.value))
    ensures Post(req, apiKey, upstream).body.card.finalResult == Classify(req.divinationResults.value)
  {
  }
}
