/**
 * The moon-block ("jiao bei") vocabulary shared by the three API routes and the page:
 * the names of the three throw outcomes, the counting rule that turns a list of
 * outcomes into a verdict, the fallback verdict cards and the per-throw text bank.
 */
module Omens {
  import opened Wrappers

  /** The wire names of the three outcomes. */
  const SHENG := "SHENG"  // one face up, one face down: affirmation
  const XIAO := "XIAO"    // both faces down: the gods laugh
  const YIN := "YIN"      // both faces up: denial

  /** A throw outcome as the page produces it (`DivinationResult`). */
  datatype Cast = Sheng | Xiao | Yin

  function Name(c: Cast): (name: string)
  {
    match c
    case Sheng => SHENG
    case Xiao => XIAO
    case Yin => YIN
  }

  /** The list of outcome names that the page sends to the routes. */
  function Names(cs: seq<Cast>): (names: seq<string>)
    ensures |names| == |cs|
    ensures forall i :: 0 <= i < |cs| ==> names[i] == Name(cs[i])
  {
    seq(|cs|, i requires 0 <= i < |cs| => Name(cs[i]))
  }

  /** Distinct outcomes have distinct wire names (they differ in the first letter). */
  lemma NameIs(c: Cast)
    ensures Name(c) == SHENG <==> c == Sheng
    ensures Name(c) == YIN <==> c == Yin
    ensures Name(c) == XIAO <==> c == Xiao
  {
    assert SHENG[0] == 'S' && YIN[0] == 'Y' && XIAO[0] == 'X';
  }

  /** The final verdict: quit the job, stay, or put off the decision. */
  datatype Verdict = Quit | Stay | Maybe

  /** The five text fields of a result card and its verdict. */
  datatype Card = Card(
    cardTitle: string,
    cardSubtitle: string,
    stamp: string,
    interpretation: string,
    divinationText: string,
    finalResult: Verdict)

  /**
   * The `finalResult` field of a card as JSON carries it to the page: Missing when the
   * field is absent or null, Known when it names a verdict, and Other for any other
   * string, which nothing on the way rejects. `Other` is meant for strings other than
   * "QUIT", "STAY" and "MAYBE", which are `Known`.
   */
  datatype ServedVerdict = Missing | Known(verdict: Verdict) | Other(text: string)

  /** The JavaScript truth value of the field: absent, null and "" are false. */
  predicate Truthy(v: ServedVerdict)
  {
    v.Known? || (v.Other? && v.text != "")
  }

  /**
   * A card as JSON carries it from the upstream model to the page. The routes forward
   * the model's object without checking it, so its verdict may be missing or unknown.
   */
  datatype ServedCard = ServedCard(
    cardTitle: string,
    cardSubtitle: string,
    stamp: string,
    interpretation: string,
    divinationText: string,
    finalResult: ServedVerdict)

  /** A card a route builds itself, as the page reads it back from the JSON body. */
  function Serve(card: Card): (served: ServedCard)
    ensures served.finalResult == Known(card.finalResult)
    ensures served.interpretation == card.interpretation
  {
    ServedCard(card.cardTitle, card.cardSubtitle, card.stamp, card.interpretation,
               card.divinationText, Known(card.finalResult))
  }

  /** `results.filter(r => r === name).length` */
  function Count(results: seq<string>, name: string): (n: nat)
    ensures n <= |results|
  {
    if results == [] then 0
    else Count(results[..|results| - 1], name) + (if results[|results| - 1] == name then 1 else 0)
  }

  /** The counting rule: two SHENG quit, else two YIN stay, else maybe. */
  function Classify(results: seq<string>): (v: Verdict)
    ensures v == Quit <==> Count(results, SHENG) >= 2
    ensures v == Maybe <==> Count(results, SHENG) < 2 && Count(results, YIN) < 2
    ensures |results| <= 3 ==> (v == Stay <==> Count(results, YIN) >= 2)
  {
    CountsDisjoint(results, SHENG, YIN);
    if Count(results, SHENG) >= 2 then Quit
    else if Count(results, YIN) >= 2 then Stay
    else Maybe
  }

  /** The fallback card for each verdict. */
  function FallbackTable(v: Verdict): (card: Card)
    ensures card.finalResult == v
  {
    match v
    case Quit =>
      Card("辞职申请书", "老子不干了！", "准予离职",
           "两次圣杯！神仙都在催你快跑，不辞职就做善事吧！",
           "圣杯加持，天意如此，是时候追求自由了。", Quit)
    case Stay =>
      Card("再忍五天暴击卡", "为了五斗米折腰", "继续搬砖",
           "两次阴杯，神仙劝你冷静。工资卡余额提醒你：梦想很贵。",
           "阴杯示警，留得青山在，不怕没柴烧。", Stay)
    case Maybe =>
      Card("赛博摸鱼许可证", "精神离职，肉体打卡", "暂缓决定",
           "结果混乱，说明时机未到。建议继续观望，顺便摸摸鱼。",
           "天意未明，不如静观其变，该来的总会来。", Maybe)
  }

  /** The fallback card of the final route (and of the page's own fallback). */
  function FallbackFinalCard(results: seq<string>): (card: Card)
    ensures card.finalResult == Classify(results)
    ensures card == FallbackTable(card.finalResult)
  {
    if Count(results, SHENG) >= 2 then FallbackTable(Quit)
    else if Count(results, YIN) >= 2 then FallbackTable(Stay)
    else FallbackTable(Maybe)
  }

  /** The card both routes return when the request itself cannot be handled. */
  const EmergencyCard := Card(
    "赛博占卜结果", "天意难测，且行且珍惜", "天意",
    "网络不稳定，但神仙的意思你应该懂的。",
    "技术故障，建议重试或自行决断。", Maybe)

  /** A random index into a four-entry text bank. */
  type Pick = k: nat | k < 4

  const ShengTexts := [
    "神仙点头了，这是要飞升的节奏！",
    "圣杯出现，老板听了会沉默，HR听了会流泪。",
    "一正一反，天意让你反了这个班！",
    "圣杯加持，辞职信已经在路上了。"]
  const YinTexts := [
    "两面朝天，神仙说：醒醒，房贷还没还完呢。",
    "阴杯警告，钱包提醒你要现实一点。",
    "神仙翻了个白眼：就你这存款还想辞职？",
    "阴杯示警，建议先攒够三年生活费再说。"]
  const XiaoTexts := [
    "神仙笑了，可能在笑你还没穷够。",
    "笑杯出现，连神仙都觉得你在纠结什么。",
    "两面朝地，神仙说：要不先摸鱼试试？",
    "笑杯调侃，人生何必太认真，先摸鱼再说。"]

  /** `throwTexts[name]`: the per-throw commentary bank, absent for any other key. */
  function TextBank(name: string): (bank: Option<seq<string>>)
    ensures bank.Some? <==> name in {SHENG, XIAO, YIN}
    ensures bank.Some? ==> |bank.value| == 4
  {
    if name == SHENG then Some(ShengTexts)
    else if name == YIN then Some(YinTexts)
    else if name == XIAO then Some(XiaoTexts)
    else None
  }

  /** The page's `getFallbackText`: a random entry of the bank of the outcome. */
  function CastText(c: Cast, pick: Pick): (text: string)
    ensures TextBank(Name(c)).Some? && text in TextBank(Name(c)).value
  {
    TextBank(Name(c)).value[pick]
  }

  // ---------------------------------------------------------------------------
  // Properties of the counting rule

  /** Counting by `filter` is the multiplicity of the name in the list. */
  lemma {:induction false} CountIsMultiplicity(results: seq<string>, name: string)
    ensures Count(results, name) == multiset(results)[name]
  {
    if results != [] {
      var init := results[..|results| - 1];
      assert results == init + [results[|results| - 1]];
      CountIsMultiplicity(init, name);
    }
  }

  /** The verdict depends only on which outcomes were thrown, not on their order. */
  lemma ClassifyPermutationInvariant(a: seq<string>, b: seq<string>)
    requires multiset(a) == multiset(b)
    ensures Classify(a) == Classify(b)
  {
    CountIsMultiplicity(a, SHENG);
    CountIsMultiplicity(b, SHENG);
    CountIsMultiplicity(a, YIN);
    CountIsMultiplicity(b, YIN);
  }

  /** Two different names are counted in disjoint parts of the list. */
  lemma {:induction false} CountsDisjoint(results: seq<string>, x: string, y: string)
    requires x != y
    ensures Count(results, x) + Count(results, y) <= |results|
  {
    if results != [] {
      CountsDisjoint(results[..|results| - 1], x, y);
    }
  }

  /** Three different names are counted in disjoint parts of the list. */
  lemma {:induction false} CountsDisjoint3(results: seq<string>, x: string, y: string, z: string)
    requires x != y && y != z && x != z
    ensures Count(results, x) + Count(results, y) + Count(results, z) <= |results|
  {
    if results != [] {
      CountsDisjoint3(results[..|results| - 1], x, y, z);
    }
  }

  /** With three throws, "two SHENG" and "two YIN" never both hold. */
  lemma RulesExclusiveForThree(results: seq<string>)
    requires |results| == 3
    ensures !(Count(results, SHENG) >= 2 && Count(results, YIN) >= 2)
  {
    CountsDisjoint(results, SHENG, YIN);
  }

  /** At least two of the three throws are `x`. */
  predicate AtLeastTwo(a: Cast, b: Cast, c: Cast, x: Cast)
  {
    (a == x && b == x) || (a == x && c == x) || (b == x && c == x)
  }

  /**
   * The whole table of the 27 three-throw sequences, stated throw by throw:
   * a majority of SHENG quits, a majority of YIN stays, and MAYBE is exactly
   * a majority of XIAO or one throw of each kind.
   */
  lemma ClassifyThreeThrows(a: Cast, b: Cast, c: Cast)
    ensures Classify(Names([a, b, c])) == Quit <==> AtLeastTwo(a, b, c, Sheng)
    ensures Classify(Names([a, b, c])) == Stay <==> AtLeastTwo(a, b, c, Yin)
    ensures Classify(Names([a, b, c])) == Maybe <==>
              AtLeastTwo(a, b, c, Xiao) || (a != b && b != c && a != c)
  {
    NameIs(a);
    NameIs(b);
    NameIs(c);
    var ns := Names([a, b, c]);
    assert ns == [Name(a), Name(b), Name(c)];
    CountOfThree(ns, SHENG);
    CountOfThree(ns, YIN);
  }

  /** Counting in a three-element list, position by position. */
  lemma CountOfThree(results: seq<string>, name: string)
    requires |results| == 3
    ensures Count(results, name) ==
              (if results[0] == name then 1 else 0) +
              (if results[1] == name then 1 else 0) +
              (if results[2] == name then 1 else 0)
  {
    var two, one := results[..2], results[..1];
    assert results[..|results| - 1] == two;
    assert two[..|two| - 1] == one;
    assert one[..|one| - 1] == [];
    assert Count(one, name) == (if results[0] == name then 1 else 0);
    assert Count(two, name) == Count(one, name) + (if results[1] == name then 1 else 0);
  }

  /** All three the same does not defer: SHENG SHENG SHENG quits and YIN YIN YIN stays. */
  lemma ThreeOfAKind()
    ensures Classify([SHENG, SHENG, SHENG]) == Quit
    ensures Classify([YIN, YIN, YIN]) == Stay
    ensures Classify([XIAO, XIAO, XIAO]) == Maybe
  {
    CountOfThree([SHENG, SHENG, SHENG], SHENG);
    CountOfThree([YIN, YIN, YIN], SHENG);
    CountOfThree([YIN, YIN, YIN], YIN);
    CountOfThree([XIAO, XIAO, XIAO], SHENG);
    CountOfThree([XIAO, XIAO, XIAO], YIN);
    assert XIAO[0] != SHENG[0] && XIAO[0] != YIN[0] && YIN[0] != SHENG[0];
  }

  /** Anything that is neither SHENG nor YIN counts for neither rule. */
  lemma {:induction false} UnknownNamesDefer(results: seq<string>)
    requires forall i :: 0 <= i < |results| ==> results[i] != SHENG && results[i] != YIN
    ensures Classify(results) == Maybe
  {
    CountIsMultiplicity(results, SHENG);
    CountIsMultiplicity(results, YIN);
    assert SHENG !in multiset(results);
    assert YIN !in multiset(results);
  }
}
