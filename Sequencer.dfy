/**
 * The divination page (`Home`): one complaint, three throws of the moon blocks, a
 * commentary line per throw and a final verdict card. Every React state variable is a
 * field. Timer callbacks and server answers are explicit events: `Settle` (the 800 ms
 * throw animation), `Finalize` (the 8 s pause after the third throw), `NoteArrives`
 * and `CardArrives` (answers of /api/divination/single and /api/divination/final) and
 * `FinishDisposal` (the end of the shredding or burning animation). The queues
 * `disposals`, `finalTimers`, `noteRequests` and `cardRequests` hold what is pending.
 */
module Sequencer {
  import opened Wrappers
  import opened Omens
  import opened PageBasics

  /** One entry of `aiCardData.throwResults`; the text is absent if the answer had none. */
  datatype ThrowNote = ThrowNote(result: Cast, text: Option<string>)

  /** `aiCardData`: the per-throw lines by index (a sparse array) and the final card. */
  datatype AiCardData = AiCardData(throwResults: map<nat, ThrowNote>, card: Option<ServedCard>)

  /** What `fetchSingleThrowAI` gets: the parsed `{ text }` body, or an exception. */
  datatype NoteReply = NoteBody(text: Option<string>) | NoteFailed

  /**
   * What `generateFinalResult` gets: the parsed card body, whose verdict nothing has
   * checked, or an exception.
   */
  datatype CardReply = CardBody(card: ServedCard) | CardFailed

  /** An unanswered commentary request for the throw at `index`. */
  datatype NoteRequest = NoteRequest(result: Cast, index: nat)

  /** `{ ...prev, throwResults[index]: note }`: one slot written, the rest kept. */
  function WithNote(prev: Option<AiCardData>, index: nat, note: ThrowNote): (next: AiCardData)
    ensures index in next.throwResults && next.throwResults[index] == note
    ensures forall j :: j != index ==>
              (j in next.throwResults <==> prev.Some? && j in prev.value.throwResults)
    ensures forall j :: j != index && j in next.throwResults ==>
              next.throwResults[j] == prev.value.throwResults[j]
    ensures next.card == (if prev.Some? then prev.value.card else None)
  {
    var base := if prev.Some? then prev.value else AiCardData(map[], None);
    base.(throwResults := base.throwResults[index := note])
  }

  /** `{ ...prev, ...card }`: the card fields replaced, the per-throw lines kept. */
  function WithCard(prev: Option<AiCardData>, card: ServedCard): (next: AiCardData)
    ensures next.card == Some(card)
    ensures next.throwResults == (if prev.Some? then prev.value.throwResults else map[])
  {
    AiCardData(if prev.Some? then prev.value.throwResults else map[], Some(card))
  }

  class Home {
    var complaints: seq<Complaint>
    var complaintHistory: seq<Complaint>
    var inputText: string
    var step: Step
    var isShredding: bool
    var isShredded: bool
    var isBurning: bool
    var divinationCount: nat
    var isSpinning: bool
    var isConsulting: bool
    var lastDivination: Option<Cast>
    var divinationHistory: seq<Cast>
    var finalResult: ServedVerdict
    var currentZhaXin: string
    var aiCardData: Option<AiCardData>
    var isLoadingAI: bool

    // Pending timers and requests, in the order they were started.
    var disposals: seq<PendingDisposal>
    var finalTimers: seq<seq<Cast>>
    var noteRequests: seq<NoteRequest>
    var cardRequests: seq<seq<Cast>>

    /**
     * What every event preserves: the counter is the length of the history, the shown
     * throw is the last one, the two "busy" flags move together and never wait without
     * an answer to come, every finalisation is over exactly three outcomes, and a shown
     * verdict is the one on the stored card. The result step does not imply a verdict:
     * a served card reaches it with whatever `finalResult` it carries.
     */
    ghost predicate Valid()
      reads this
    {
      && divinationCount == |divinationHistory|
      && (lastDivination.Some? ==>
            |divinationHistory| > 0 && lastDivination.value == divinationHistory[|divinationHistory| - 1])
      && isLoadingAI == isConsulting
      && (isConsulting ==> |cardRequests| > 0)
      && (forall i :: 0 <= i < |finalTimers| ==> |finalTimers[i]| == 3)
      && (forall i :: 0 <= i < |cardRequests| ==> |cardRequests[i]| == 3)
      && (finalResult != Missing ==>
            && aiCardData.Some? && aiCardData.value.card.Some?
            && aiCardData.value.card.value.finalResult == finalResult
            && currentZhaXin == aiCardData.value.card.value.interpretation)
    }

    /** `step === 'RESULT' && finalResult`: the condition under which the result section is drawn. */
    predicate ResultDrawn()
      reads this
      ensures ResultDrawn() ==> step == Result && finalResult != Missing
      ensures finalResult.Known? ==> (ResultDrawn() <==> step == Result)
    {
      step == Result && Truthy(finalResult)
    }

    /** The initial state of every `useState`. */
    constructor ()
      ensures Valid()
      ensures complaints == [] && complaintHistory == [] && inputText == "" && step == Input
      ensures !isShredding && !isShredded && !isBurning && divinationCount == 0
      ensures !isSpinning && !isConsulting && lastDivination == None && divinationHistory == []
      ensures finalResult == Missing && currentZhaXin == "" && aiCardData == None && !isLoadingAI
      ensures disposals == [] && finalTimers == [] && noteRequests == [] && cardRequests == []
    {
      complaints, complaintHistory, inputText, step := [], [], "", Input;
      isShredding, isShredded, isBurning, divinationCount := false, false, false, 0;
      isSpinning, isConsulting, lastDivination, divinationHistory := false, false, None, [];
      finalResult, currentZhaXin, aiCardData, isLoadingAI := Missing, "", None, false;
      disposals, finalTimers, noteRequests, cardRequests := [], [], [], [];
    }

    /** Typing in the complaint box. */
    method EditInput(text: string)
      requires Valid()
      modifies this`inputText
      ensures Valid() && inputText == text
    {
      inputText := text;
    }

    /** `addComplaint`: a non-blank input becomes the one current complaint and heads the history. */
    method AddComplaint(id: string)
      requires Valid()
      modifies this`complaints, this`complaintHistory, this`inputText, this`isShredded
      ensures Valid()
      ensures IsBlank(old(inputText)) ==> unchanged(this)
      ensures !IsBlank(old(inputText)) ==>
                var c := Complaint(id, old(inputText), Some(Pending));
                && complaints == [c]
                && complaintHistory == [c] + old(complaintHistory)
                && inputText == ""
                && !isShredded
    {
      if IsBlank(inputText) {
        return;
      }
      var c := Complaint(id, inputText, Some(Pending));
      complaints := [c];
      complaintHistory := [c] + complaintHistory;
      inputText := "";
      isShredded := false;
    }

    /** `handleShred` / `handleBurn`: start the animation and schedule its end for `complaints[0]`. */
    method StartDisposal(kind: Disposal)
      requires Valid()
      modifies this`isShredding, this`isBurning, this`disposals
      ensures Valid()
      ensures |complaints| == 0 ==> unchanged(this)
      ensures |complaints| > 0 ==>
                && disposals == old(disposals) + [PendingDisposal(kind, complaints[0].id)]
                && (kind == Shred ==> isShredding && isBurning == old(isBurning))
                && (kind == Burn ==> isBurning && isShredding == old(isShredding))
    {
      if |complaints| == 0 {
        return;
      }
      if kind == Shred {
        isShredding := true;
      } else {
        isBurning := true;
      }
      disposals := disposals + [PendingDisposal(kind, complaints[0].id)];
    }

    /** The end of a shredding or burning animation: only the entry with the captured id changes status. */
    method FinishDisposal(k: nat)
      requires Valid()
      requires k < |disposals|
      modifies this`isShredding, this`isBurning, this`isShredded, this`complaintHistory, this`disposals
      ensures Valid()
      ensures disposals == old(disposals[..k] + disposals[k + 1..])
      ensures isShredded
      ensures complaintHistory == MarkStatus(old(complaintHistory), old(disposals[k].id), StatusAfter(old(disposals[k].kind)))
      ensures old(disposals[k].kind) == Shred ==> !isShredding && isBurning == old(isBurning)
      ensures old(disposals[k].kind) == Burn ==> !isBurning && isShredding == old(isShredding)
    {
      var d := disposals[k];
      disposals := disposals[..k] + disposals[k + 1..];
      if d.kind == Shred {
        isShredding := false;
      } else {
        isBurning := false;
      }
      isShredded := true;
      complaintHistory := MarkStatus(complaintHistory, d.id, StatusAfter(d.kind));
    }

    /**
     * `startDivination`: with no complaint the default one is installed and counts as
     * destroyed; an undestroyed complaint raises the alert and nothing changes.
     */
    method StartDivination() returns (alerted: bool)
      requires Valid()
      modifies this`complaints, this`isShredded, this`step
      ensures Valid()
      ensures alerted <==> |old(complaints)| > 0 && !old(isShredded)
      ensures alerted ==> unchanged(this)
      ensures !alerted ==>
                && step == Divination && isShredded
                && complaints == (if |old(complaints)| == 0 then [DefaultComplaint] else old(complaints))
    {
      alerted := false;
      if |complaints| == 0 {
        complaints := [DefaultComplaint];
        isShredded := true;
      } else if !isShredded {
        alerted := true;
        return;
      }
      step := Divination;
    }

    /** `throwBei`: ignored while a throw spins or the final card is awaited; the count is not checked. */
    method ThrowBei()
      requires Valid()
      modifies this`isSpinning
      ensures Valid()
      ensures old(isSpinning || isConsulting) ==> unchanged(this)
      ensures !old(isSpinning || isConsulting) ==> isSpinning
    {
      if isSpinning || isConsulting {
        return;
      }
      isSpinning := true;
    }

    /**
     * The 800 ms callback of `throwBei`, with `res` the random outcome: record the
     * throw, ask for its commentary, and on the third throw schedule the finalisation
     * over the three outcomes.
     */
    method Settle(res: Cast)
      requires Valid()
      requires isSpinning
      modifies this`lastDivination, this`divinationCount, this`divinationHistory, this`isSpinning,
               this`noteRequests, this`finalTimers
      ensures Valid()
      ensures lastDivination == Some(res)
      ensures divinationCount == old(divinationCount) + 1
      ensures divinationHistory == old(divinationHistory) + [res]
      ensures !isSpinning
      ensures noteRequests == old(noteRequests) + [NoteRequest(res, old(divinationCount))]
      ensures finalTimers == old(finalTimers) + (if divinationCount == 3 then [divinationHistory] else [])
    {
      lastDivination := Some(res);
      var nextCount := divinationCount + 1;
      divinationCount := nextCount;
      var history := divinationHistory;
      divinationHistory := divinationHistory + [res];
      isSpinning := false;
      noteRequests := noteRequests + [NoteRequest(res, nextCount - 1)];
      if nextCount == 3 {
        finalTimers := finalTimers + [history + [res]];
      }
    }

    /** The 8 s callback: hide the last throw, show "consulting" and request the final card. */
    method Finalize()
      requires Valid()
      requires |finalTimers| > 0
      modifies this`lastDivination, this`isConsulting, this`isLoadingAI, this`finalTimers, this`cardRequests
      ensures Valid()
      ensures lastDivination == None && isConsulting && isLoadingAI
      ensures finalTimers == old(finalTimers[1..])
      ensures cardRequests == old(cardRequests) + [old(finalTimers[0])]
    {
      var outcomes := finalTimers[0];
      finalTimers := finalTimers[1..];
      lastDivination := None;
      isConsulting := true;
      isLoadingAI := true;
      cardRequests := cardRequests + [outcomes];
    }

    /**
     * The answer to the k-th pending commentary request: whatever the session state,
     * it writes slot `index` of `aiCardData.throwResults` and nothing else. A body of
     * any status is used as it is; only an exception draws from the fallback bank.
     */
    method NoteArrives(k: nat, reply: NoteReply, pick: Pick)
      requires Valid()
      requires k < |noteRequests|
      modifies this`noteRequests, this`aiCardData
      ensures Valid()
      ensures noteRequests == old(noteRequests[..k] + noteRequests[k + 1..])
      ensures var r := old(noteRequests[k]);
              var text := if reply.NoteBody? then reply.text else Some(CastText(r.result, pick));
              aiCardData == Some(WithNote(old(aiCardData), r.index, ThrowNote(r.result, text)))
    {
      var r := noteRequests[k];
      noteRequests := noteRequests[..k] + noteRequests[k + 1..];
      var text := if reply.NoteBody? then reply.text else Some(CastText(r.result, pick));
      aiCardData := Some(WithNote(aiCardData, r.index, ThrowNote(r.result, text)));
    }

    /**
     * The answer to the k-th pending final-card request: the server's card is copied as
     * it is, verdict included, even a missing one, and only an exception falls back to
     * the counting rule over the three requested outcomes. Either way the result step is
     * entered and the busy flags drop.
     */
    method CardArrives(k: nat, reply: CardReply)
      requires Valid()
      requires k < |cardRequests|
      modifies this`cardRequests, this`aiCardData, this`finalResult, this`currentZhaXin, this`step,
               this`isLoadingAI, this`isConsulting
      ensures Valid()
      ensures cardRequests == old(cardRequests[..k] + cardRequests[k + 1..])
      ensures var card := if reply.CardBody? then reply.card else Serve(FallbackFinalCard(Names(old(cardRequests[k]))));
              && aiCardData == Some(WithCard(old(aiCardData), card))
              && finalResult == card.finalResult
              && currentZhaXin == card.interpretation
      ensures reply.CardFailed? ==> finalResult == Known(Classify(Names(old(cardRequests[k]))))
      ensures step == Result && !isLoadingAI && !isConsulting
    {
      var outcomes := cardRequests[k];
      cardRequests := cardRequests[..k] + cardRequests[k + 1..];
      assert forall i :: 0 <= i < |cardRequests| ==> cardRequests[i] in old(cardRequests);
      var card := if reply.CardBody? then reply.card else Serve(FallbackFinalCard(Names(outcomes)));
      aiCardData := Some(WithCard(aiCardData, card));
      finalResult := card.finalResult;
      currentZhaXin := card.interpretation;
      step := Result;
      isLoadingAI := false;
      isConsulting := false;
    }

    /**
     * `reset`: back to the input step with an empty ritual. The busy flags, the input
     * text and everything pending are left as they are, so late answers still land.
     */
    method Reset()
      requires Valid()
      modifies this`step, this`divinationCount, this`lastDivination, this`divinationHistory,
               this`finalResult, this`complaints, this`isShredded, this`aiCardData
      ensures Valid()
      ensures step == Input && divinationCount == 0 && lastDivination == None && divinationHistory == []
      ensures finalResult == Missing && complaints == [] && !isShredded && aiCardData == None
    {
      step := Input;
      divinationCount := 0;
      lastDivination := None;
      divinationHistory := [];
      finalResult := Missing;
      complaints := [];
      isShredded := false;
      aiCardData := None;
    }

    /** `continueComplaining`: the same assignments as `reset`. */
    method ContinueComplaining()
      requires Valid()
      modifies this`step, this`divinationCount, this`lastDivination, this`divinationHistory,
               this`finalResult, this`complaints, this`isShredded, this`aiCardData
      ensures Valid()
      ensures step == Input && divinationCount == 0 && lastDivination == None && divinationHistory == []
      ensures finalResult == Missing && complaints == [] && !isShredded && aiCardData == None
    {
      Reset();
    }

    /** `resetToInput`: drop the current complaint and clear the input box. */
    method ResetToInput()
      requires Valid()
      modifies this`complaints, this`isShredded, this`inputText
      ensures Valid()
      ensures complaints == [] && !isShredded && inputText == ""
    {
      complaints := [];
      isShredded := false;
      inputText := "";
    }
  }
}
