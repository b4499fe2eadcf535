/**
 * The GhostText wire records exchanged between the browser peer and the
 * editor: the inbound `GhostTextData` record and the fixed shape of every
 * outbound message.  JSON encoding and decoding are library calls and are
 * not part of this module; messages are modelled as already-parsed records.
 */
module Protocol {

  /** The stock optional value, used for JSON fields that may be absent. */
  datatype Option<T> = None | Some(value: T)

  /** A selection as two character offsets into the document text. */
  datatype Selection = Selection(start: int, end: int)

  /**
   * An inbound message.  `selections` may be missing from the JSON
   * payload, which the session treats as the empty list.
   */
  datatype Message = Message(
    text: string,
    selections: Option<seq<Selection>>,
    title: string,
    url: string,
    syntax: string)

  /** An outbound message: these four fields, always. */
  datatype Outgoing = Outgoing(
    title: string,
    text: string,
    syntax: string,
    selections: seq<Selection>)

  /** `data.selections || []`: a missing selection list reads as empty. */
  function SelectionsOf(m: Message): (r: seq<Selection>)
    ensures m.selections.Some? ==> r == m.selections.value
    ensures m.selections.None? ==> r == []
  {
    match m.selections
    case Some(s) => s
    case None => []
  }

  /**
   * The message `send(text)` transmits: the given text, empty title and
   * syntax, and no selections, whatever the caller's selections were.
   */
  function OutgoingMessage(text: string): (r: Outgoing)
    ensures r.text == text
    ensures r.title == "" && r.syntax == ""
    ensures r.selections == []
  {
    Outgoing("", text, "", [])
  }
}
