/**
 * POST /api/divination: the older route that answers with a verdict card and a
 * commentary line for every throw. It refuses to run without an API key, and its
 * rule-based fallback has a fourth card for "one throw of each kind".
 */
module DivinationRoute {
  import opened Wrappers
  import opened Omens
  import opened Http

  /** The abort timer of the upstream call. */
  const TimeoutMs := 60000

  datatype Request =
    | Unparseable
    | Body(complaint: Option<string>, divinationResults: Option<seq<string>>)

  /** One entry of `throwResults`. */
  datatype ThrowText = ThrowText(result: string, text: string)

  /**
   * The object the upstream model is asked for: a card and a commentary line per throw.
   * Nothing checks it, so the verdict may be missing and so may `throwResults`.
   */
  datatype ModelAnswer = ModelAnswer(card: ServedCard, throwResults: Option<seq<ThrowText>>)

  /**
   * The JSON body of the answer: an error, a card the route built (with or without
   * the per-throw lines), or the upstream model's object passed on unchecked.
   */
  datatype Reply =
    | Error(error: string)
    | CardReply(card: Card)
    | CardWithThrows(card: Card, throwResults: seq<ThrowText>)
    | Forwarded(answer: ModelAnswer)

  const NeedThreeResults := "需要三次掷茭结果"
  const KeyMissing := "API Key 未配置"

  /** The extra MAYBE card for exactly one SHENG, one YIN and one XIAO. */
  const SlackingCard := Card(
    "赛博摸鱼许可证", "带薪如厕，精神离职", "建议摸鱼",
    "三种结果都有？神仙也拿不定主意，不如先摸鱼冷静一下。",
    "笑杯调侃，人生何必太认真，摸鱼才是真谛。", Maybe)

  /** Exactly one SHENG, one YIN and one XIAO; only a list of three or more can have them. */
  predicate OneOfEach(results: seq<string>)
    ensures OneOfEach(results) ==> |results| >= 3
  {
    CountsDisjoint3(results, SHENG, YIN, XIAO);
    Count(results, SHENG) == 1 && Count(results, YIN) == 1 && Count(results, XIAO) == 1
  }

  /**
   * The card chosen by `generateFallbackResult`. Its verdict always agrees with the
   * final route's rule; only the text of the one-of-each MAYBE card differs.
   */
  function FallbackCard(results: seq<string>): (card: Card)
    ensures card.finalResult == Classify(results)
    ensures OneOfEach(results) ==> card == SlackingCard
    ensures !OneOfEach(results) ==> card == FallbackFinalCard(results)
  {
    if Count(results, SHENG) >= 2 then FallbackTable(Quit)
    else if Count(results, YIN) >= 2 then FallbackTable(Stay)
    else if Count(results, SHENG) == 1 && Count(results, YIN) == 1 && Count(results, XIAO) == 1 then SlackingCard
    else FallbackTable(Maybe)
  }

  /**
   * `results.map(...)`: a commentary line per throw, the i-th drawn with `pick(i)`.
   * None when some result has no bank, where the lookup throws a TypeError.
   */
  function ThrowTexts(results: seq<string>, pick: nat -> Pick): (r: Option<seq<ThrowText>>)
    ensures r.Some? <==> forall i :: 0 <= i < |results| ==> TextBank(results[i]).Some?
    ensures r.Some? ==> |r.value| == |results|
    ensures r.Some? ==> forall i :: 0 <= i < |results| ==>
              r.value[i].result == results[i] && r.value[i].text == TextBank(results[i]).value[pick(i)]
    decreases |results|
  {
    if results == [] then Some([])
    else
      var n := |results| - 1;
      var bank := TextBank(results[n]);
      match ThrowTexts(results[..n], pick)
      case None => None
      case Some(init) =>
        if bank.None? then None
        else Some(init + [ThrowText(results[n], bank.value[pick(n)])])
  }

  /** `generateFallbackResult`: the card and the per-throw lines, or None when it throws. */
  function FallbackResult(results: seq<string>, pick: nat -> Pick): (reply: Option<Reply>)
    ensures reply.Some? <==> forall i :: 0 <= i < |results| ==> TextBank(results[i]).Some?
    ensures reply.Some? ==>
              && reply.value.CardWithThrows?
              && reply.value.card == FallbackCard(results)
              && reply.value.card.finalResult == Classify(results)
              && |reply.value.throwResults| == |results|
              && forall i :: 0 <= i < |results| ==>
                   reply.value.throwResults[i].result == results[i] &&
                   reply.value.throwResults[i].text in TextBank(results[i]).value
  {
    match ThrowTexts(results, pick)
    case None => None
    case Some(texts) => Some(CardWithThrows(FallbackCard(results), texts))
  }

  predicate WellShaped(req: Request)
    requires req.Body?
  {
    req.divinationResults.Some? && |req.divinationResults.value| == 3
  }

  /** The decision tree of the handler. */
  function Post(req: Request, apiKey: Option<string>, upstream: Upstream<ModelAnswer>, pick: nat -> Pick): (r: Response<Reply>)
    ensures r.status == 400 <==> req.Body? && !WellShaped(req)
    ensures r.status == 400 ==> r.body == Error(NeedThreeResults)
    ensures r.status == 500 <==> req.Body? && WellShaped(req) && !KeyConfigured(apiKey)
    ensures r.status == 500 ==> r.body == Error(KeyMissing)
    ensures r.status !in {400, 500} ==> r.status == 200
    ensures req.Unparseable? ==> r.body == CardReply(EmergencyCard)
    ensures req.Body? && WellShaped(req) && KeyConfigured(apiKey) && Delivered(upstream, TimeoutMs) ==>
              r.body == Forwarded(upstream.payload.value)
    ensures req.Body? && WellShaped(req) && KeyConfigured(apiKey) && !Delivered(upstream, TimeoutMs) ==>
              var results := req.divinationResults.value;
              if forall i :: 0 <= i < 3 ==> TextBank(results[i]).Some? then
                r.body.CardWithThrows? && r.body.card == FallbackCard(results) &&
                |r.body.throwResults| == 3 &&
                forall i :: 0 <= i < 3 ==>
                  r.body.throwResults[i].result == results[i] &&
                  r.body.throwResults[i].text in TextBank(results[i]).value
              else
                r.body == CardReply(EmergencyCard)
  {
    match req
    case Unparseable => Response(200, CardReply(EmergencyCard))
    case Body(_, results) =>
      if results.None? || |results.value| != 3 then Response(400, Error(NeedThreeResults))
      else if !KeyConfigured(apiKey) then Response(500, Error(KeyMissing))
      else if Delivered(upstream, TimeoutMs) then Response(200, Forwarded(upstream.payload.value))
      else
        match FallbackResult(results.value, pick)
        case Some(reply) => Response(200, reply)
        case None => Response(200, CardReply(EmergencyCard))
  }

  /** `!apiKey`: an empty key is refused like a missing one. */
  lemma EmptyKeyIsNoKey(req: Request, upstream: Upstream<ModelAnswer>, pick: nat -> Pick)
    ensures Post(req, Some(""), upstream, pick) == Post(req, None, upstream, pick)
  {
  }

  /** On three valid outcomes, the one-of-each case is exactly three different throws. */
  lemma OneOfEachThrows(a: Cast, b: Cast, c: Cast)
    ensures OneOfEach(Names([a, b, c])) <==> a != b && b != c && a != c
  {
    NameIs(a);
    NameIs(b);
    NameIs(c);
    var ns := Names([a, b, c]);
    assert ns == [Name(a), Name(b), Name(c)];
    CountOfThree(ns, SHENG);
    CountOfThree(ns, YIN);
    CountOfThree(ns, XIAO);
  }

  /** On three valid outcomes the two routes' fallbacks agree on the verdict, for every order. */
  lemma RoutesAgreeOnVerdict(a: Cast, b: Cast, c: Cast)
    ensures FallbackCard(Names([a, b, c])).finalResult == FallbackFinalCard(Names([a, b, c])).finalResult
    ensures FallbackCard(Names([a, b, c])) != FallbackFinalCard(Names([a, b, c])) <==>
              a != b && b != c && a != c
  {
    NameIs(a);
    NameIs(b);
    NameIs(c);
    var ns := Names([a, b, c]);
    assert ns == [Name(a), Name(b), Name(c)];
    CountOfThree(ns, SHENG);
    CountOfThree(ns, YIN);
    CountOfThree(ns, XIAO);
  }
}
