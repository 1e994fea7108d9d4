/**
 * Runs of the page model that show, from the event contracts alone, what the page
 * does in the situations that show its timing and fallback behaviour.
 */
module PageScenarios {
  import opened Wrappers
  import opened Omens
  import opened PageBasics
  import opened Sequencer

  /** Three throws from a fresh page; on return the third has settled. */
  method ThreeThrows(h: Home, a: Cast, b: Cast, c: Cast)
    requires h.Valid() && !h.isSpinning && !h.isConsulting
    requires h.divinationHistory == [] && h.finalTimers == [] && h.noteRequests == []
    modifies h
    ensures h.Valid() && !h.isSpinning && !h.isConsulting
    ensures h.divinationHistory == [a, b, c] && h.divinationCount == 3 && h.lastDivination == Some(c)
    ensures h.finalTimers == [[a, b, c]]
    ensures h.noteRequests == [NoteRequest(a, 0), NoteRequest(b, 1), NoteRequest(c, 2)]
    ensures h.cardRequests == old(h.cardRequests) && h.aiCardData == old(h.aiCardData)
    ensures h.finalResult == old(h.finalResult) && h.step == old(h.step)
  {
    h.ThrowBei();
    h.Settle(a);
    h.ThrowBei();
    h.Settle(b);
    h.ThrowBei();
    h.Settle(c);
  }

  /**
   * The complaint "老板画饼" is shredded, the throws are SHENG, SHENG, XIAO and the
   * final request fails: the page shows QUIT with every field of the QUIT fallback card.
   */
  method QuitOnFallback() returns (verdict: ServedVerdict, card: Option<ServedCard>, step: Step)
    ensures verdict == Known(Quit)
    ensures card == Some(Serve(FallbackTable(Quit)))
    ensures step == Result
  {
    var h := new Home();
    ShredAndBegin(h, "老板画饼", "k3x9");
    ThreeThrows(h, Sheng, Sheng, Xiao);
    h.Finalize();
    h.CardArrives(0, CardFailed);
    RuleOnQuitRun();
    verdict, card, step := h.finalResult, h.aiCardData.value.card, h.step;
  }

  /**
   * Enter a complaint, shred it and begin: the history records it as shredded, while
   * the current complaint keeps the status it was created with.
   */
  method ShredAndBegin(h: Home, text: string, id: string)
    requires h.Valid() && h.inputText == "" && h.complaints == [] && h.complaintHistory == [] && h.disposals == []
    requires |text| > 0 && !IsJsWhitespace(text[0])
    modifies h
    ensures h.Valid() && h.step == Divination && h.isShredded
    ensures h.complaints == [Complaint(id, text, Some(Pending))]
    ensures h.complaintHistory == [Complaint(id, text, Some(Shredded))]
    ensures h.isSpinning == old(h.isSpinning) && h.isConsulting == old(h.isConsulting)
    ensures h.divinationHistory == old(h.divinationHistory) && h.finalTimers == old(h.finalTimers)
    ensures h.noteRequests == old(h.noteRequests) && h.cardRequests == old(h.cardRequests)
    ensures h.aiCardData == old(h.aiCardData) && h.finalResult == old(h.finalResult)
  {
    EnterComplaint(h, text, id);
    ShredOnly(h, Complaint(id, text, Some(Pending)));
    var alerted := h.StartDivination();
    assert !alerted;
  }

  /** Shred the one complaint on the page and let the animation end. */
  method ShredOnly(h: Home, c: Complaint)
    requires h.Valid() && h.complaints == [c] && h.complaintHistory == [c] && h.disposals == []
    modifies h`isShredding, h`isBurning, h`isShredded, h`complaintHistory, h`disposals
    ensures h.Valid() && h.isShredded && h.disposals == []
    ensures h.complaintHistory == [c.(status := Some(Shredded))]
  {
    h.StartDisposal(Shred);
    assert h.disposals == [PendingDisposal(Shred, c.id)];
    h.FinishDisposal(0);
    MarkOne(c, Shredded);
  }

  /** Type a non-blank complaint into an empty page and add it. */
  method EnterComplaint(h: Home, text: string, id: string)
    requires h.Valid() && h.inputText == "" && h.complaints == [] && h.complaintHistory == [] && h.disposals == []
    requires |text| > 0 && !IsJsWhitespace(text[0])
    modifies h`inputText, h`complaints, h`complaintHistory, h`isShredded
    ensures h.Valid() && h.inputText == "" && !h.isShredded
    ensures h.complaints == [Complaint(id, text, Some(Pending))]
    ensures h.complaintHistory == [Complaint(id, text, Some(Pending))]
  {
    h.EditInput(text);
    assert !IsBlank(h.inputText);
    h.AddComplaint(id);
  }

  lemma MarkOne(c: Complaint, status: Status)
    ensures MarkStatus([c], c.id, status) == [c.(status := Some(status))]
  {
    assert [c][1..] == [];
  }

  lemma RuleOnQuitRun()
    ensures FallbackFinalCard(Names([Sheng, Sheng, Xiao])) == FallbackTable(Quit)
  {
    ClassifyThreeThrows(Sheng, Sheng, Xiao);
  }

  /**
   * A throw made during the 8 s pause after the third is accepted: the count reaches 4,
   * no second finalisation is scheduled, and the pending one still carries the first three.
   */
  method FourthThrowInPause(a: Cast, b: Cast, c: Cast, d: Cast)
    returns (count: nat, scheduled: seq<seq<Cast>>, requested: seq<seq<Cast>>)
    ensures count == 4
    ensures scheduled == []
    ensures requested == [[a, b, c]]
  {
    var h := new Home();
    ThreeThrows(h, a, b, c);
    h.ThrowBei();
    assert h.isSpinning;
    h.Settle(d);
    count := h.divinationCount;
    h.Finalize();
    scheduled, requested := h.finalTimers, h.cardRequests;
  }

  /**
   * Reset cancels nothing: the commentary of a throw made before the reset still
   * writes its slot into the new, empty session.
   */
  method LateNoteAfterReset(a: Cast, text: string) returns (card: Option<AiCardData>)
    ensures card == Some(AiCardData(map[0 := ThrowNote(a, Some(text))], None))
  {
    var h := new Home();
    h.ThrowBei();
    h.Settle(a);
    h.Reset();
    h.NoteArrives(0, NoteBody(Some(text)), 0);
    card := h.aiCardData;
  }

  /**
   * The server's verdict is taken as it is: three SHENG throws with a server card that
   * says STAY show STAY, although the counting rule says QUIT.
   */
  method ServerVerdictUnchecked(served: ServedCard) returns (shown: ServedVerdict, rule: Verdict)
    requires served.finalResult == Known(Stay)
    ensures shown == Known(Stay)
    ensures rule == Quit
  {
    var h := new Home();
    ThreeThrows(h, Sheng, Sheng, Sheng);
    h.Finalize();
    h.CardArrives(0, CardBody(served));
    shown := h.finalResult;
    ThreeOfAKind();
    assert Names([Sheng, Sheng, Sheng]) == [SHENG, SHENG, SHENG];
    rule := Classify(Names(h.divinationHistory));
  }

  /**
   * A served card whose verdict is missing still ends the ritual: the page enters the
   * result step with no verdict, and the result section is not drawn.
   */
  method ResultWithoutVerdict(served: ServedCard) returns (step: Step, shown: ServedVerdict, drawn: bool, busy: bool)
    requires served.finalResult == Missing
    ensures step == Result
    ensures shown == Missing
    ensures !drawn
    ensures !busy
  {
    var h := new Home();
    ThreeThrows(h, Xiao, Yin, Sheng);
    h.Finalize();
    h.CardArrives(0, CardBody(served));
    step, shown, drawn, busy := h.step, h.finalResult, h.ResultDrawn(), h.isConsulting || h.isLoadingAI;
  }

  /**
   * A served card whose verdict is a non-empty string other than QUIT, STAY and MAYBE
   * is kept as it is, and the result section is drawn for a verdict that has no entry
   * in the result table.
   */
  method UnknownVerdictDrawn(served: ServedCard) returns (step: Step, shown: ServedVerdict, drawn: bool)
    requires served.finalResult.Other? && served.finalResult.text != ""
    requires served.finalResult.text !in {"QUIT", "STAY", "MAYBE"}
    ensures step == Result
    ensures shown == served.finalResult && !shown.Known?
    ensures drawn
  {
    var h := new Home();
    ThreeThrows(h, Sheng, Sheng, Yin);
    h.Finalize();
    h.CardArrives(0, CardBody(served));
    step, shown, drawn := h.step, h.finalResult, h.ResultDrawn();
  }
}
