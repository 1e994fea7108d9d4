/**
 * What both versions of the page share: the three screens, the complaint records,
 * and the pure helpers their handlers use (the `trim()` emptiness test and the
 * status `map`).
 */
module PageBasics {
  import opened Wrappers

  /** The screen the page shows. */
  datatype Step = Input | Divination | Result

  datatype Status = Pending | Shredded | Burnt

  /** A complaint; its timestamp and random tilt are presentation only. */
  datatype Complaint = Complaint(id: string, text: string, status: Option<Status>)

  /** The stand-in complaint that starting without one installs (it has no status). */
  const DefaultComplaint := Complaint("default", "心中所念之事", None)

  /** How a complaint is destroyed: shredding (4500 ms) or burning (5000 ms). */
  datatype Disposal = Shred | Burn

  function StatusAfter(d: Disposal): (status: Status)
  {
    match d
    case Shred => Shredded
    case Burn => Burnt
  }

  /** A scheduled destruction: its kind and the id of `complaints[0]` when it was scheduled. */
  datatype PendingDisposal = PendingDisposal(kind: Disposal, id: string)

  /** The characters ECMAScript's `String.prototype.trim` removes. */
  predicate IsJsWhitespace(ch: char)
  {
    ch in {'\U{0009}', '\U{000A}', '\U{000B}', '\U{000C}', '\U{000D}', '\U{0020}',
           '\U{00A0}', '\U{1680}', '\U{2000}', '\U{2001}', '\U{2002}', '\U{2003}',
           '\U{2004}', '\U{2005}', '\U{2006}', '\U{2007}', '\U{2008}', '\U{2009}',
           '\U{200A}', '\U{2028}', '\U{2029}', '\U{202F}', '\U{205F}', '\U{3000}',
           '\U{FEFF}'}
  }

  /** `!text.trim()`: nothing is left once surrounding whitespace is removed. */
  predicate IsBlank(text: string)
  {
    forall i :: 0 <= i < |text| ==> IsJsWhitespace(text[i])
  }

  /** The text with its leading `trim` whitespace removed. */
  function TrimStart(text: string): (rest: string)
    ensures |rest| <= |text| && rest == text[|text| - |rest|..]
    ensures rest != "" ==> !IsJsWhitespace(rest[0])
  {
    if text == [] || !IsJsWhitespace(text[0]) then text else TrimStart(text[1..])
  }

  /**
   * Blank is what `trim` empties: trimming the start alone leaves nothing exactly when
   * every character is whitespace, and then trimming the end has nothing left to remove.
   */
  lemma {:induction false} BlankIffTrimsToEmpty(text: string)
    ensures IsBlank(text) <==> TrimStart(text) == ""
  {
    if text != [] && IsJsWhitespace(text[0]) {
      BlankIffTrimsToEmpty(text[1..]);
      if IsBlank(text[1..]) {
        forall i | 0 <= i < |text|
          ensures IsJsWhitespace(text[i])
        {
          if i > 0 {
            assert text[i] == text[1..][i - 1];
          }
        }
      } else {
        var j :| 0 <= j < |text[1..]| && !IsJsWhitespace(text[1..][j]);
        assert text[j + 1] == text[1..][j];
      }
    }
  }

  /**
   * `history.map(c => c.id === id ? { ...c, status } : c)`: every entry with that id
   * gets the new status, and nothing else changes.
   */
  function MarkStatus(history: seq<Complaint>, id: string, status: Status): (marked: seq<Complaint>)
    ensures |marked| == |history|
    ensures forall i :: 0 <= i < |history| ==>
              marked[i].id == history[i].id && marked[i].text == history[i].text
    ensures forall i :: 0 <= i < |history| ==>
              marked[i].status == (if history[i].id == id then Some(status) else history[i].status)
  {
    if history == [] then []
    else
      [if history[0].id == id then history[0].(status := Some(status)) else history[0]]
      + MarkStatus(history[1..], id, status)
  }
}
