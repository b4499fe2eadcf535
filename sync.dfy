/**
 * The synchronisation session as a state machine over values: the state
 * the session closure keeps (its document, the `enterLocalEdit` echo
 * guard, its disposables), which of its editor listeners are still
 * registered, and the connection it owns.  The handler functions below
 * are what the `Session` class's methods are proved to do; `Step` adds
 * the editor and the transport delivering one event, and the lemmas
 * state what the session guarantees over any run of events.
 */
module Sync {
  import opened Protocol
  import opened Editor
  import opened Server

  /** The two editor listeners a bound session registers. */
  datatype Subscription = CloseSubscription | ChangeSubscription

  const BothSubscriptions: set<Subscription> := {CloseSubscription, ChangeSubscription}

  /**
   * `document` is absent until the first inbound message; `listening`
   * holds the listeners the editor still calls (a disposed one is gone);
   * `closeListener` says whether the connection's `close` listener has
   * been registered; `documentsOpened` counts the documents the session opened
   * and `disposeCalls` the `dispose()` calls made on its disposables.
   */
  datatype State = State(
    document: Option<Doc>,
    enterLocalEdit: nat,
    disposables: seq<Subscription>,
    listening: set<Subscription>,
    closeListener: bool,
    conn: ConnState,
    documentsOpened: nat,
    disposeCalls: nat)

  /** A session just handed its connection: no document, nothing registered. */
  function Init(c: ConnState): State
  {
    State(None, 0, [], {}, false, c, 0, 0)
  }

  /**
   * The session invariant between two events: the echo guard is at rest;
   * an unbound session has registered nothing; a bound one has opened
   * exactly one document and registered both listeners, which are either
   * all live or all disposed, and all disposed once its document closed.
   */
  predicate Valid(s: State)
  {
    && s.enterLocalEdit == 0
    && (s.document.None? ==>
          s.disposables == [] && s.listening == {} && !s.closeListener && s.documentsOpened == 0)
    && (s.document.Some? ==>
          && s.disposables == [CloseSubscription, ChangeSubscription]
          && s.closeListener
          && s.documentsOpened == 1
          && (s.listening == {} || s.listening == BothSubscriptions)
          && (s.document.value.isClosed ==> s.listening == {}))
  }

  /** The session is torn down: no listener left, document closed. */
  predicate TornDown(s: State)
  {
    s.listening == {} && s.document.Some? && s.document.value.isClosed
  }

  /**
   * The first-message branch of the data handler: open the document with
   * the message's text, register the connection's `close` listener and
   * push the two editor listeners.  A bound session is left as it is.
   */
  function Bind(s: State, m: Message): (r: State)
    ensures r.document.Some?
    ensures s.document.Some? ==> r == s
    ensures s.document.None? ==>
      && r.document == Some(Open(m.text))
      && r.documentsOpened == s.documentsOpened + 1
      && r.closeListener
      && r.disposables == s.disposables + [CloseSubscription, ChangeSubscription]
      && r.listening == s.listening + BothSubscriptions
      && r.conn == s.conn && r.enterLocalEdit == s.enterLocalEdit
      && r.disposeCalls == s.disposeCalls
  {
    if s.document.Some? then s
    else
      s.(document := Some(Open(m.text)), documentsOpened := s.documentsOpened + 1, closeListener := true,
         disposables := s.disposables + [CloseSubscription, ChangeSubscription],
         listening := s.listening + BothSubscriptions)
  }

  /**
   * The change listener: a change of this session's document, seen while
   * the echo guard is at rest, sends the document's whole text; anything
   * else sends nothing.  Only the connection can change.
   */
  function HandleChange(s: State, ours: bool): (r: State)
    ensures r.(conn := s.conn) == s
    ensures !ours || s.document.None? || s.enterLocalEdit > 0 ==> r == s
    ensures ours && s.document.Some? && s.enterLocalEdit == 0 ==>
              r.conn == AfterSend(s.conn, s.document.value.text)
  {
    if ours && s.document.Some? && s.enterLocalEdit == 0 then
      s.(conn := AfterSend(s.conn, s.document.value.text))
    else s
  }

  /**
   * `cleanup`: dispose every disposable, close the connection, and close
   * the document if there is one (which does nothing to a closed one).
   */
  function Cleanup(s: State): (r: State)
    ensures r.listening == s.listening - set d | d in s.disposables
    ensures r.disposeCalls == s.disposeCalls + |s.disposables|
    ensures r.conn == AfterClose(s.conn)
    ensures r.document.Some? <==> s.document.Some?
    ensures s.document.Some? ==> r.document.value == CloseDoc(s.document.value)
    ensures r.enterLocalEdit == s.enterLocalEdit && r.disposables == s.disposables
    ensures r.closeListener == s.closeListener && r.documentsOpened == s.documentsOpened
  {
    var disposed := s.(listening := s.listening - (set d | d in s.disposables),
                       disposeCalls := s.disposeCalls + |s.disposables|);
    var closed := disposed.(conn := AfterClose(disposed.conn));
    match closed.document
    case None => closed
    case Some(d) => closed.(document := Some(CloseDoc(d)))
  }

  /** The document-close listener: only this session's document, once closed, tears down. */
  function HandleClose(s: State, ours: bool): (r: State)
    ensures !ours || s.document.None? || !s.document.value.isClosed ==> r == s
    ensures ours && s.document.Some? && s.document.value.isClosed ==> r == Cleanup(s)
  {
    if ours && s.document.Some? && s.document.value.isClosed then Cleanup(s) else s
  }

  /** The connection's `close` listener. */
  function HandleConnectionClose(s: State): State
  {
    Cleanup(s)
  }

  /**
   * The data handler: bind on the first message, then raise the echo
   * guard, update the document (the editor reporting the change it made
   * to the change listener while the guard is raised), and lower the
   * guard again whether or not the update threw.
   */
  function HandleData(s: State, m: Message, outcome: EditOutcome): (r: State)
    ensures r.enterLocalEdit == s.enterLocalEdit
    ensures r.conn == s.conn
    ensures r.document.Some?
    ensures s.document.Some? ==>
              r == s.(document := Some(Update(s.document.value, m.text, SelectionsOf(m), outcome)))
    ensures s.document.None? ==>
              r == Bind(s, m).(document := Some(Update(Open(m.text), m.text, SelectionsOf(m), outcome)))
  {
    var bound := Bind(s, m);
    var entered := bound.(enterLocalEdit := bound.enterLocalEdit + 1);
    var doc := entered.document.value;
    var updated := entered.(document := Some(Update(doc, m.text, SelectionsOf(m), outcome)));
    var notified :=
      if UpdateChanges(doc, outcome) && ChangeSubscription in updated.listening
      then HandleChange(updated, true) else updated;
    notified.(enterLocalEdit := notified.enterLocalEdit - 1)
  }

  /** Whether the data handler's update threw (after the guard was lowered). */
  predicate DataRaises(s: State, m: Message, outcome: EditOutcome)
  {
    UpdateRaises(Bind(s, m).document.value, outcome)
  }

  /** One event from the peer, the transport or the editor. */
  datatype Event =
    | Inbound(message: Message, outcome: EditOutcome)  // a socket message, and what the editor does with its update
    | PeerClose                                         // the socket reports it closed
    | LocalEdit(text: string, selections: seq<Selection>)  // the user edits the session's document
    | LocalClose                                        // the user closes the session's document
    | OtherChange                                       // some other document changes
    | OtherClose                                        // some other document closes

  /** The session after one event, each listener invoked only while it is registered. */
  function Step(s: State, e: Event): State
  {
    match e
    case Inbound(m, o) =>
      HandleData(s.(conn := AfterMessage(s.conn, m)), m, o)
    case PeerClose =>
      var c := s.(conn := AfterSocketClose(s.conn));
      if c.closeListener then HandleConnectionClose(c) else c
    case LocalEdit(t, sels) =>
      if s.document.Some? && !s.document.value.isClosed then
        var edited := s.(document := Some(Doc(t, ClampAll(sels, |t|), false)));
        if ChangeSubscription in edited.listening then HandleChange(edited, true) else edited
      else s
    case LocalClose =>
      if s.document.Some? && !s.document.value.isClosed then
        var closed := s.(document := Some(s.document.value.(isClosed := true)));
        if CloseSubscription in closed.listening then HandleClose(closed, true) else closed
      else s
    case OtherChange =>
      if ChangeSubscription in s.listening then HandleChange(s, false) else s
    case OtherClose =>
      if CloseSubscription in s.listening then HandleClose(s, false) else s
  }

  /** The session after a run of events, in order. */
  function Run(s: State, es: seq<Event>): State
    decreases |es|
  {
    if es == [] then s else Run(Step(s, es[0]), es[1..])
  }

  lemma InitValid(c: ConnState)
    ensures Valid(Init(c))
  {
  }

  lemma StepPreservesValid(s: State, e: Event)
    requires Valid(s)
    ensures Valid(Step(s, e))
  {
    match e
    case PeerClose =>
      var c := s.(conn := AfterSocketClose(s.conn));
      if c.closeListener {
        assert (set d | d in c.disposables) == BothSubscriptions;
      }
    case LocalClose =>
      if s.document.Some? && !s.document.value.isClosed {
        assert (set d | d in s.disposables) == BothSubscriptions;
      }
    case _ =>
  }

  /** Every run keeps the invariant, so in particular the echo guard is back at rest after every event. */
  lemma {:induction false} RunPreservesValid(s: State, es: seq<Event>)
    requires Valid(s)
    ensures Valid(Run(s, es))
    ensures Run(s, es).enterLocalEdit == 0 && Run(s, es).documentsOpened <= 1
    decreases |es|
  {
    if es != [] {
      StepPreservesValid(s, es[0]);
      RunPreservesValid(Step(s, es[0]), es[1..]);
    }
  }

  /**
   * A session has a document exactly when it started with one or has
   * seen an inbound message, and never opens more than one.
   */
  lemma {:induction false} RunBinding(s: State, es: seq<Event>)
    requires Valid(s)
    ensures Run(s, es).document.Some? <==>
              s.document.Some? || exists i :: 0 <= i < |es| && es[i].Inbound?
    ensures Run(s, es).documentsOpened == (if Run(s, es).document.Some? then 1 else 0)
    decreases |es|
  {
    if es != [] {
      StepPreservesValid(s, es[0]);
      RunBinding(Step(s, es[0]), es[1..]);
      var t := Step(s, es[0]);
      assert t.document.Some? <==> s.document.Some? || es[0].Inbound?;
      if exists i :: 0 <= i < |es| && es[i].Inbound? {
        var i :| 0 <= i < |es| && es[i].Inbound?;
        if i > 0 {
          assert es[1..][i - 1].Inbound?;
        }
      }
      if exists j :: 0 <= j < |es[1..]| && es[1..][j].Inbound? {
        var j :| 0 <= j < |es[1..]| && es[1..][j].Inbound?;
        assert es[j + 1].Inbound?;
      }
    } else {
      RunPreservesValid(s, es);
    }
  }

  /**
   * The first inbound message opens one document holding the message's
   * text, whatever the editor does with the update that follows, and
   * registers the connection's and both editor listeners.
   */
  lemma FirstMessageBinds(c: ConnState, m: Message, o: EditOutcome)
    ensures Step(Init(c), Inbound(m, o)).document.Some?
    ensures Step(Init(c), Inbound(m, o)).document.value.text == m.text
    ensures !Step(Init(c), Inbound(m, o)).document.value.isClosed
    ensures Step(Init(c), Inbound(m, o)).documentsOpened == 1
    ensures Step(Init(c), Inbound(m, o)).listening == BothSubscriptions
    ensures Step(Init(c), Inbound(m, o)).closeListener
  {
  }

  /** A later message reuses the document and replaces its whole text. */
  lemma InboundReplacesText(s: State, m: Message)
    requires Valid(s) && s.document.Some? && !s.document.value.isClosed
    ensures Step(s, Inbound(m, Applied)).document.value.text == m.text
    ensures Step(s, Inbound(m, Applied)).documentsOpened == 1
  {
  }

  /** An empty (or missing) selection list leaves the selections as they were. */
  lemma InboundKeepsSelectionsWhenEmpty(s: State, m: Message, o: EditOutcome)
    requires s.document.Some? && SelectionsOf(m) == []
    ensures Step(s, Inbound(m, o)).document.value.selections == s.document.value.selections
  {
  }

  /** A non-empty selection list is applied, clamped into the new text. */
  lemma InboundSetsSelections(s: State, m: Message)
    requires s.document.None? || !s.document.value.isClosed
    requires SelectionsOf(m) != []
    ensures Step(s, Inbound(m, Applied)).document.value.selections == ClampAll(SelectionsOf(m), |m.text|)
  {
  }

  /**
   * Applying an inbound message never sends anything back to the peer,
   * leaves the echo guard where it was, and does not touch the listeners,
   * even when the update throws.
   */
  lemma InboundNeverEchoes(s: State, m: Message, o: EditOutcome)
    ensures Step(s, Inbound(m, o)).conn.transmitted == s.conn.transmitted
    ensures Step(s, Inbound(m, o)).conn.socketSet == s.conn.socketSet
    ensures Step(s, Inbound(m, o)).enterLocalEdit == s.enterLocalEdit
    ensures s.document.Some? ==> Step(s, Inbound(m, o)).listening == s.listening
  {
  }

  /** While the echo guard is raised, a change of the session's own document sends nothing. */
  lemma RaisedGuardSuppressesEcho(s: State)
    requires s.enterLocalEdit > 0
    ensures HandleChange(s, true) == s
  {
  }

  /**
   * A user edit of a live session's document sends exactly one message,
   * carrying the document's whole new text (and, as the connection
   * sends it, no selections).
   */
  lemma LocalEditSendsOnce(s: State, t: string, sels: seq<Selection>)
    requires Valid(s) && s.document.Some? && !s.document.value.isClosed
    requires s.listening == BothSubscriptions && s.conn.socketSet
    ensures Step(s, LocalEdit(t, sels)).conn.transmitted == s.conn.transmitted + [Outgoing("", t, "", [])]
    ensures Step(s, LocalEdit(t, sels)).document.value.text == t
  {
  }

  /** Once the session is torn down, user edits reach nobody. */
  lemma LocalEditAfterTeardownIsSilent(s: State, t: string, sels: seq<Selection>)
    requires s.listening == {}
    ensures Step(s, LocalEdit(t, sels)).conn == s.conn
  {
  }

  /** Notifications about other documents change nothing. */
  lemma OtherDocumentsIgnored(s: State)
    ensures Step(s, OtherChange) == s
    ensures Step(s, OtherClose) == s
  {
  }

  /**
   * Running the cleanup a second time leaves the state of running it once,
   * except that every disposable is disposed once more.
   */
  lemma CleanupIdempotent(s: State)
    ensures Cleanup(Cleanup(s)) == Cleanup(s).(disposeCalls := Cleanup(s).disposeCalls + |s.disposables|)
  {
  }

  /** After the cleanup of a valid session, nothing is left open. */
  lemma CleanupReleasesEverything(s: State)
    requires Valid(s)
    ensures Cleanup(s).listening == {}
    ensures !Cleanup(s).conn.socketSet
    ensures s.document.Some? ==> TornDown(Cleanup(s))
  {
    if s.document.Some? {
      assert (set d | d in s.disposables) == BothSubscriptions;
    }
  }

  /** Closing the session's document in the editor tears the session down. */
  lemma LocalCloseTearsDown(s: State)
    requires Valid(s) && s.document.Some? && !s.document.value.isClosed
    requires s.listening == BothSubscriptions
    ensures TornDown(Step(s, LocalClose))
    ensures !Step(s, LocalClose).conn.socketSet
    ensures Step(s, LocalClose).document.value.text == s.document.value.text
  {
    assert (set d | d in s.disposables) == BothSubscriptions;
  }

  /**
   * A peer close before any message finds no `close` listener: the
   * connection drops its socket and nothing else happens.
   */
  lemma EarlyPeerCloseSkipsCleanup(c: ConnState)
    ensures Step(Init(c), PeerClose) == Init(AfterSocketClose(c))
  {
  }

  /**
   * Both teardown triggers, in either order, release the listeners, close
   * the document and call the socket's `close()` exactly once.  The peer
   * closing first empties the document before it closes; the user closing
   * first leaves the text as the user left it, and runs the cleanup a
   * second time when the socket's `close` event follows, disposing both
   * listeners twice.
   */
  lemma TeardownEitherOrder(s: State)
    requires Valid(s) && s.document.Some? && !s.document.value.isClosed
    requires s.listening == BothSubscriptions && s.conn.socketSet
    ensures TornDown(Run(s, [LocalClose, PeerClose]))
    ensures TornDown(Run(s, [PeerClose, LocalClose]))
    ensures Run(s, [LocalClose, PeerClose]).conn.closeCalls == s.conn.closeCalls + 1
    ensures Run(s, [PeerClose, LocalClose]).conn.closeCalls == s.conn.closeCalls + 1
    ensures !Run(s, [LocalClose, PeerClose]).conn.socketSet
    ensures !Run(s, [PeerClose, LocalClose]).conn.socketSet
    ensures Run(s, [LocalClose, PeerClose]).conn.transmitted == s.conn.transmitted
    ensures Run(s, [PeerClose, LocalClose]).conn.transmitted == s.conn.transmitted
    ensures Run(s, [LocalClose, PeerClose]).document.value.text == s.document.value.text
    ensures Run(s, [PeerClose, LocalClose]).document.value.text == ""
    ensures Run(s, [LocalClose, PeerClose]).disposeCalls == s.disposeCalls + 4
    ensures Run(s, [PeerClose, LocalClose]).disposeCalls == s.disposeCalls + 2
  {
    assert (set d | d in s.disposables) == BothSubscriptions;
    var a := Step(s, LocalClose);
    LocalCloseTearsDown(s);
    assert Run(s, [LocalClose, PeerClose]) == Step(a, PeerClose) by {
      assert [LocalClose, PeerClose][1..] == [PeerClose];
    }
    var b := Step(s, PeerClose);
    assert Run(s, [PeerClose, LocalClose]) == Step(b, LocalClose) by {
      assert [PeerClose, LocalClose][1..] == [LocalClose];
    }
  }

  /** Messages reaching a torn-down session change nothing but the connection's event log. */
  lemma TornDownIgnoresInbound(s: State, m: Message, o: EditOutcome)
    requires TornDown(s)
    ensures Step(s, Inbound(m, o)) == s.(conn := AfterMessage(s.conn, m))
  {
  }

  /**
   * A whole session: the first message binds with its text, a second one
   * replaces the text and places the cursor without echoing, and a user
   * edit then sends the new text once (without the cursor, which the
   * connection does not transmit).
   */
  lemma HelloWorldScenario()
    ensures
      var first := Message("hello", Some([]), "t", "u", "markdown");
      var second := Message("hello world", Some([Selection(11, 11)]), "", "", "");
      var s0 := Init(Opened(0, []));
      var s2 := Run(s0, [Inbound(first, Applied), Inbound(second, Applied)]);
      var s3 := Run(s0, [Inbound(first, Applied), Inbound(second, Applied),
                         LocalEdit("hello world!", [Selection(12, 12)])]);
      && s2.document == Some(Doc("hello world", [Selection(11, 11)], false))
      && s2.conn.transmitted == []
      && s3.conn.transmitted == [Outgoing("", "hello world!", "", [])]
  {
    var first := Message("hello", Some([]), "t", "u", "markdown");
    var second := Message("hello world", Some([Selection(11, 11)]), "", "", "");
    var s0 := Init(Opened(0, []));
    var s1 := Step(s0, Inbound(first, Applied));
    var s2 := Step(s1, Inbound(second, Applied));
    var edit := LocalEdit("hello world!", [Selection(12, 12)]);
    assert ClampAll([Selection(11, 11)], 11) == [Selection(11, 11)];
    assert Run(s0, [Inbound(first, Applied), Inbound(second, Applied)]) == s2 by {
      assert [Inbound(first, Applied), Inbound(second, Applied)][1..] == [Inbound(second, Applied)];
      assert Run(s1, [Inbound(second, Applied)]) == Run(s2, []);
    }
    assert Run(s0, [Inbound(first, Applied), Inbound(second, Applied), edit]) == Step(s2, edit) by {
      assert [Inbound(first, Applied), Inbound(second, Applied), edit][1..] == [Inbound(second, Applied), edit];
      assert [Inbound(second, Applied), edit][1..] == [edit];
      assert Run(s2, [edit]) == Run(Step(s2, edit), []);
    }
  }
}
