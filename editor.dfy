/**
 * The editor's text document, reduced to the three things the session
 * reads and writes (text, selections, whether it is closed), and the two
 * helpers of the extension that act on it: `updateDocument` and
 * `closeDocument`.  The editor calls they make (showing the document,
 * applying an edit, closing the active editor) are not modelled as code;
 * their effect on the document is stated here as an assumption about the
 * editor.
 */
module Editor {
  import opened Protocol

  datatype Doc = Doc(text: string, selections: seq<Selection>, isClosed: bool)

  /**
   * What the editor does with one `updateDocument` call on an open
   * document: the edit is applied, the edit promise resolves `false`
   * (nothing replaced, selections still set), or showing the document or
   * applying the edit throws.
   */
  datatype EditOutcome = Applied | Refused | Threw

  /** A fresh document opened with the given content. */
  function Open(text: string): (r: Doc)
    ensures r.text == text && !r.isClosed && r.selections == []
  {
    Doc(text, [], false)
  }

  function Distance(a: int, b: int): nat
  {
    if a <= b then b - a else a - b
  }

  /**
   * The assumed behaviour of the editor's offset-to-position conversion:
   * an offset is moved to the nearest offset of the text.
   */
  function Clamp(offset: int, length: nat): (r: nat)
    ensures r <= length
    ensures forall k :: 0 <= k <= length ==> Distance(r, offset) <= Distance(k, offset)
  {
    if offset < 0 then 0 else if offset > length then length else offset
  }

  /** Every selection of the list, with both ends clamped into the text. */
  function ClampAll(sels: seq<Selection>, length: nat): (r: seq<Selection>)
    ensures |r| == |sels|
    ensures forall i :: 0 <= i < |r| ==>
              0 <= r[i].start <= length && 0 <= r[i].end <= length
    ensures forall i :: 0 <= i < |r| ==>
              (0 <= sels[i].start <= length ==> r[i].start == sels[i].start) &&
              (0 <= sels[i].end <= length ==> r[i].end == sels[i].end)
    ensures forall i :: 0 <= i < |r| ==>
              (sels[i].start > length ==> r[i].start == length) &&
              (sels[i].start < 0 ==> r[i].start == 0) &&
              (sels[i].end > length ==> r[i].end == length) &&
              (sels[i].end < 0 ==> r[i].end == 0)
  {
    seq(|sels|, i requires 0 <= i < |sels| =>
      Selection(Clamp(sels[i].start, length), Clamp(sels[i].end, length)))
  }

  /**
   * `updateDocument(document, text, selections)`: on an open document the
   * whole range from the first position to the end of the last line is
   * replaced by `text`, then, only when the list is non-empty, the
   * selections are set; a closed document is left alone.
   */
  function Update(d: Doc, text: string, sels: seq<Selection>, outcome: EditOutcome): (r: Doc)
    ensures r.isClosed == d.isClosed
    ensures d.isClosed ==> r == d
    ensures !d.isClosed && outcome == Applied ==> r.text == text
    ensures outcome != Applied ==> r.text == d.text
    ensures sels == [] || outcome == Threw ==> r.selections == d.selections
    ensures !d.isClosed && sels != [] && outcome != Threw ==> r.selections == ClampAll(sels, |r.text|)
  {
    if d.isClosed then d
    else
      var edited := if outcome == Applied then d.(text := text) else d;
      if outcome == Threw then d
      else if |sels| > 0 then edited.(selections := ClampAll(sels, |edited.text|))
      else edited
  }

  /** Whether such a call raises to its caller. */
  predicate UpdateRaises(d: Doc, outcome: EditOutcome)
  {
    !d.isClosed && outcome == Threw
  }

  /** Whether such a call makes the editor report a text change. */
  predicate UpdateChanges(d: Doc, outcome: EditOutcome)
  {
    !d.isClosed && outcome == Applied
  }

  /**
   * `closeDocument(document)`: an open document is first emptied and then
   * its editor is closed; a closed document is left alone.
   */
  function CloseDoc(d: Doc): (r: Doc)
    ensures r.isClosed
    ensures d.isClosed ==> r == d
    ensures !d.isClosed ==> r.text == "" && r.selections == d.selections
  {
    if d.isClosed then d else Update(d, "", [], Applied).(isClosed := true)
  }

  /** Each update replaces the text outright: only the last update matters. */
  lemma UpdateReplacesText(d: Doc, a: string, b: string, s1: seq<Selection>, s2: seq<Selection>)
    requires !d.isClosed
    ensures Update(Update(d, a, s1, Applied), b, s2, Applied).text == b
    ensures Update(Update(d, a, s1, Applied), b, s2, Applied).text == Update(d, b, s2, Applied).text
  {
  }

  /** An offset far past the end lands at the end: a zero-length selection there. */
  lemma FarSelectionClampsToEnd()
    ensures ClampAll([Selection(1000000, 1000000)], 5) == [Selection(5, 5)]
  {
  }

  lemma CloseDocIdempotent(d: Doc)
    ensures CloseDoc(CloseDoc(d)) == CloseDoc(d)
  {
  }

  /** The document as the editor holds it. */
  class TextDocument {
    var text: string
    var selections: seq<Selection>
    var isClosed: bool

    ghost function Model(): Doc
      reads this
    {
      Doc(text, selections, isClosed)
    }

    /** `openTextDocument({content: text})`. */
    constructor (text: string)
      ensures Model() == Open(text)
    {
      this.text := text;
      selections := [];
      isClosed := false;
    }

    /** The user editing the document in the editor. */
    method UserEdit(newText: string, sels: seq<Selection>)
      requires !isClosed
      modifies this
      ensures Model() == Doc(newText, ClampAll(sels, |newText|), false)
    {
      text := newText;
      selections := ClampAll(sels, |newText|);
    }

    /** The user closing the document in the editor. */
    method UserClose()
      modifies this
      ensures Model() == old(Model()).(isClosed := true)
    {
      isClosed := true;
    }
  }

  /** `updateDocument`; `raised` says whether the call threw. */
  method UpdateDocument(document: TextDocument, text: string, sels: seq<Selection>, outcome: EditOutcome)
    returns (raised: bool)
    modifies document
    ensures document.Model() == Update(old(document.Model()), text, sels, outcome)
    ensures raised == UpdateRaises(old(document.Model()), outcome)
  {
    raised := false;
    if !document.isClosed {
      if outcome == Threw {
        raised := true;
        return;
      }
      if outcome == Applied {
        document.text := text;
      }
      if |sels| > 0 {
        document.selections := ClampAll(sels, |document.text|);
      }
    }
  }

  /** `closeDocument`. */
  method CloseDocument(document: TextDocument)
    modifies document
    ensures document.Model() == CloseDoc(old(document.Model()))
  {
    if !document.isClosed {
      var _ := UpdateDocument(document, "", [], Applied);
      document.isClosed := true;
    }
  }
}
