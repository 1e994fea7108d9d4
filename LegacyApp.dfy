/**
 * The earlier single-file page (`App`): the same complaint handling and throw loop,
 * but no server calls. The third throw blocks further throws at once, and after a
 * 1.5 s pause (the `Reveal` event) the verdict and the reply are drawn at random.
 * While `isConsulting` holds, that pause is exactly the one pending timer.
 */
module LegacyApp {
  import opened Wrappers
  import opened Omens
  import opened PageBasics

  /** `outcomes` of the reveal callback, indexed by the random draw. */
  const Verdicts := [Quit, Stay, Maybe]

  /** The "heart-piercing" replies, indexed by the random draw. */
  const ZhaXinReplies := [
    "老板画的饼太大，胃动力不足，建议物理隔离。",
    "月薪 3000？这哪是上班，这是在做慈善，建议给自己颁发诺贝尔和平奖。",
    "同事太奇葩？那是他在帮你磨练心性，离修仙只差一个辞职信。",
    "别问了，你的福报在后面，大概在 65 岁退休那天。"]

  class App {
    var complaints: seq<Complaint>
    var complaintHistory: seq<Complaint>
    var inputText: string
    var step: Step
    var isShredding: bool
    var isShredded: bool
    var isBurning: bool
    var divinationCount: nat
    var isSpinning: bool
    var isConsulting: bool
    var lastDivination: Option<Cast>
    var finalResult: Option<Verdict>
    var currentZhaXin: string

    // Pending shredding and burning timers, in the order they were started.
    var disposals: seq<PendingDisposal>

    /**
     * A throw never spins while the verdict is awaited, and a shown result has a
     * verdict and one of the fixed replies.
     */
    ghost predicate Valid()
      reads this
    {
      && (isSpinning ==> !isConsulting)
      && (step == Result ==> finalResult.Some?)
      && (finalResult.Some? ==> currentZhaXin in ZhaXinReplies)
    }

    constructor ()
      ensures Valid()
      ensures complaints == [] && complaintHistory == [] && inputText == "" && step == Input
      ensures !isShredding && !isShredded && !isBurning && divinationCount == 0
      ensures !isSpinning && !isConsulting && lastDivination == None
      ensures finalResult == None && currentZhaXin == "" && disposals == []
    {
      complaints, complaintHistory, inputText, step := [], [], "", Input;
      isShredding, isShredded, isBurning, divinationCount := false, false, false, 0;
      isSpinning, isConsulting, lastDivination := false, false, None;
      finalResult, currentZhaXin, disposals := None, "", [];
    }

    /** Typing in the complaint box. */
    method EditInput(text: string)
      requires Valid()
      modifies this`inputText
      ensures Valid() && inputText == text
    {
      inputText := text;
    }

    /** `addComplaint`: a non-blank input becomes the one current complaint and heads the history. */
    method AddComplaint(id: string)
      requires Valid()
      modifies this`complaints, this`complaintHistory, this`inputText, this`isShredded
      ensures Valid()
      ensures IsBlank(old(inputText)) ==> unchanged(this)
      ensures !IsBlank(old(inputText)) ==>
                var c := Complaint(id, old(inputText), Some(Pending));
                && complaints == [c]
                && complaintHistory == [c] + old(complaintHistory)
                && inputText == ""
                && !isShredded
    {
      if IsBlank(inputText) {
        return;
      }
      var c := Complaint(id, inputText, Some(Pending));
      complaints := [c];
      complaintHistory := [c] + complaintHistory;
      inputText := "";
      isShredded := false;
    }

    /** `handleShred` / `handleBurn`: start the animation and schedule its end for `complaints[0]`. */
    method StartDisposal(kind: Disposal)
      requires Valid()
      modifies this`isShredding, this`isBurning, this`disposals
      ensures Valid()
      ensures |complaints| == 0 ==> unchanged(this)
      ensures |complaints| > 0 ==>
                && disposals == old(disposals) + [PendingDisposal(kind, complaints[0].id)]
                && (kind == Shred ==> isShredding && isBurning == old(isBurning))
                && (kind == Burn ==> isBurning && isShredding == old(isShredding))
    {
      if |complaints| == 0 {
        return;
      }
      if kind == Shred {
        isShredding := true;
      } else {
        isBurning := true;
      }
      disposals := disposals + [PendingDisposal(kind, complaints[0].id)];
    }

    /** The end of a shredding or burning animation: only the entry with the captured id changes status. */
    method FinishDisposal(k: nat)
      requires Valid()
      requires k < |disposals|
      modifies this`isShredding, this`isBurning, this`isShredded, this`complaintHistory, this`disposals
      ensures Valid()
      ensures disposals == old(disposals[..k] + disposals[k + 1..])
      ensures isShredded
      ensures complaintHistory == MarkStatus(old(complaintHistory), old(disposals[k].id), StatusAfter(old(disposals[k].kind)))
      ensures old(disposals[k].kind) == Shred ==> !isShredding && isBurning == old(isBurning)
      ensures old(disposals[k].kind) == Burn ==> !isBurning && isShredding == old(isShredding)
    {
      var d := disposals[k];
      disposals := disposals[..k] + disposals[k + 1..];
      if d.kind == Shred {
        isShredding := false;
      } else {
        isBurning := false;
      }
      isShredded := true;
      complaintHistory := MarkStatus(complaintHistory, d.id, StatusAfter(d.kind));
    }

    /**
     * `startDivination`: with no complaint the default one is installed and counts as
     * destroyed; an undestroyed complaint raises the alert and nothing changes.
     */
    method StartDivination() returns (alerted: bool)
      requires Valid()
      modifies this`complaints, this`isShredded, this`step
      ensures Valid()
      ensures alerted <==> |old(complaints)| > 0 && !old(isShredded)
      ensures alerted ==> unchanged(this)
      ensures !alerted ==>
                && step == Divination && isShredded
                && complaints == (if |old(complaints)| == 0 then [DefaultComplaint] else old(complaints))
    {
      alerted := false;
      if |complaints| == 0 {
        complaints := [DefaultComplaint];
        isShredded := true;
      } else if !isShredded {
        alerted := true;
        return;
      }
      step := Divination;
    }

    /** `throwBei`: ignored while a throw spins or the verdict is awaited. */
    method ThrowBei()
      requires Valid()
      modifies this`isSpinning
      ensures Valid()
      ensures old(isSpinning || isConsulting) ==> unchanged(this)
      ensures !old(isSpinning || isConsulting) ==> isSpinning
    {
      if isSpinning || isConsulting {
        return;
      }
      isSpinning := true;
    }

    /** The 800 ms callback: record the throw; the third one starts consulting at once. */
    method Settle(res: Cast)
      requires Valid()
      requires isSpinning
      modifies this`lastDivination, this`divinationCount, this`isSpinning, this`isConsulting
      ensures Valid()
      ensures lastDivination == Some(res)
      ensures divinationCount == old(divinationCount) + 1
      ensures !isSpinning
      ensures isConsulting <==> divinationCount == 3
    {
      lastDivination := Some(res);
      var nextCount := divinationCount + 1;
      divinationCount := nextCount;
      isSpinning := false;
      if nextCount == 3 {
        isConsulting := true;
      }
    }

    /**
     * The 1.5 s callback after the third throw: the verdict and the reply are random
     * draws, whatever the three throws were.
     */
    method Reveal(verdictPick: nat, replyPick: Pick)
      requires Valid()
      requires isConsulting
      requires verdictPick < |Verdicts|
      modifies this`finalResult, this`currentZhaXin, this`step, this`isConsulting
      ensures Valid()
      ensures finalResult == Some(Verdicts[verdictPick])
      ensures currentZhaXin == ZhaXinReplies[replyPick]
      ensures step == Result && !isConsulting
    {
      finalResult := Some(Verdicts[verdictPick]);
      currentZhaXin := ZhaXinReplies[replyPick];
      step := Result;
      isConsulting := false;
    }

    /** `reset`: back to the input step; the busy flags and the pending timers are left alone. */
    method Reset()
      requires Valid()
      modifies this`step, this`divinationCount, this`lastDivination, this`finalResult,
               this`complaints, this`isShredded
      ensures Valid()
      ensures step == Input && divinationCount == 0 && lastDivination == None
      ensures finalResult == None && complaints == [] && !isShredded
    {
      step := Input;
      divinationCount := 0;
      lastDivination := None;
      finalResult := None;
      complaints := [];
      isShredded := false;
    }

    /** `continueComplaining`: the same assignments as `reset`. */
    method ContinueComplaining()
      requires Valid()
      modifies this`step, this`divinationCount, this`lastDivination, this`finalResult,
               this`complaints, this`isShredded
      ensures Valid()
      ensures step == Input && divinationCount == 0 && lastDivination == None
      ensures finalResult == None && complaints == [] && !isShredded
    {
      Reset();
    }
  }

  /** After the third throw settles, another throw request is ignored. */
  method ThirdThrowBlocks(a: Cast, b: Cast, c: Cast) returns (count: nat, spinning: bool, consulting: bool)
    ensures count == 3 && !spinning && consulting
  {
    var app := new App();
    app.ThrowBei();
    app.Settle(a);
    app.ThrowBei();
    app.Settle(b);
    app.ThrowBei();
    app.Settle(c);
    app.ThrowBei();
    count, spinning, consulting := app.divinationCount, app.isSpinning, app.isConsulting;
  }

  /** Every verdict can follow any three throws: the draw alone decides it. */
  method VerdictIgnoresThrows(a: Cast, b: Cast, c: Cast, v: Verdict) returns (shown: Option<Verdict>)
    ensures shown == Some(v)
  {
    var app := new App();
    app.ThrowBei();
    app.Settle(a);
    app.ThrowBei();
    app.Settle(b);
    app.ThrowBei();
    app.Settle(c);
    var pick := match v case Quit => 0 case Stay => 1 case Maybe => 2;
    app.Reveal(pick, 0);
    shown := app.finalResult;
  }
}
