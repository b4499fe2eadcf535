/**
 * The per-connection session that `activate` creates in its `listen`
 * callback, as an object: the closure's captured variables become fields
 * and its listeners become methods.  Each method is proved to do what the
 * matching function of `Sync` says, so the lemmas proved there about runs
 * of events hold of this object.
 */
module Extension {
  import opened Protocol
  import opened Editor
  import opened Server
  import Sync

  class Session {
    const conn: GhostTextConnection
    var document: TextDocument?
    var enterLocalEdit: nat
    var disposables: seq<Sync.Subscription>
    /** The editor listeners of this session the editor still calls. */
    var listening: set<Sync.Subscription>
    /** Whether the connection's `close` listener has been registered. */
    var closeListener: bool
    ghost var documentsOpened: nat
    /** How many `dispose()` calls were made on the disposables. */
    ghost var disposeCalls: nat

    ghost predicate Ready()
      reads this, conn
    {
      conn.Valid()
    }

    ghost function Model(): Sync.State
      reads this, document, conn, conn.ws
    {
      Sync.State(
        if document == null then None else Some(document.Model()),
        enterLocalEdit, disposables, listening, closeListener,
        conn.Model(), documentsOpened, disposeCalls)
    }

    /** The `listen` callback's set-up: nothing but the `data` listener yet. */
    constructor (conn: GhostTextConnection)
      requires conn.Valid()
      ensures Ready() && this.conn == conn
      ensures Model() == Sync.Init(conn.Model())
    {
      this.conn := conn;
      document := null;
      enterLocalEdit := 0;
      disposables := [];
      listening := {};
      closeListener := false;
      documentsOpened := 0;
      disposeCalls := 0;
    }

    /**
     * The `data` listener.  `outcome` is what the editor does with the
     * update; `failed` says whether the update threw, which in the source
     * rejects the listener's promise after the guard has been lowered.
     */
    method OnData(data: Message, outcome: EditOutcome) returns (failed: bool)
      requires Ready()
      modifies this, document, conn, conn.ws
      ensures Ready()
      ensures Model() == Sync.HandleData(old(Model()), data, outcome)
      ensures failed == Sync.DataRaises(old(Model()), data, outcome)
      ensures old(document) != null ==> document == old(document)
      ensures old(document) == null ==> fresh(document)
    {
      if document == null {
        document := new TextDocument(data.text);
        documentsOpened := documentsOpened + 1;
        closeListener := true;
        disposables := disposables + [Sync.CloseSubscription];
        listening := listening + {Sync.CloseSubscription};
        disposables := disposables + [Sync.ChangeSubscription];
        listening := listening + {Sync.ChangeSubscription};
      }
      assert Model() == Sync.Bind(old(Model()), data);
      ghost var entered := Model().(enterLocalEdit := enterLocalEdit + 1);
      enterLocalEdit := enterLocalEdit + 1;
      assert Model() == entered;
      // the guard is lowered below whether or not the update raised
      var wasOpen := !document.isClosed;
      failed := UpdateDocument(document, data.text, SelectionsOf(data), outcome);
      if wasOpen && outcome == Applied && Sync.ChangeSubscription in listening {
        // the editor reports the change it just made, with the guard raised
        OnDidChangeTextDocument(document);
      }
      enterLocalEdit := enterLocalEdit - 1;
    }

    /**
     * The `onDidChangeTextDocument` listener.  The source also reads the
     * editor's selections here and passes them on, but the connection's
     * `send` takes only the text.
     */
    method OnDidChangeTextDocument(doc: TextDocument)
      requires Ready()
      modifies conn.ws
      ensures Model() == Sync.HandleChange(old(Model()), doc == document)
    {
      if doc == document && enterLocalEdit == 0 {
        conn.Send(doc.text);
      }
    }

    /** The `forEach` over the disposables, the connection close and the document close. */
    method Cleanup()
      requires Ready()
      modifies this, document, conn, conn.ws
      ensures Ready() && document == old(document)
      ensures Model() == Sync.Cleanup(old(Model()))
    {
      var i := 0;
      while i < |disposables|
        invariant 0 <= i <= |disposables|
        invariant listening == old(listening) - set j | 0 <= j < i :: disposables[j]
        invariant document == old(document)
        invariant disposeCalls == old(disposeCalls) + i
        invariant Model() == old(Model()).(listening := listening, disposeCalls := disposeCalls)
        modifies this
      {
        listening := listening - {disposables[i]};
        disposeCalls := disposeCalls + 1;
        i := i + 1;
      }
      assert (set j | 0 <= j < |disposables| :: disposables[j]) == set d | d in disposables;
      conn.Close();
      if document != null {
        CloseDocument(document);
      }
    }

    /** The `onDidCloseTextDocument` listener. */
    method OnDidCloseTextDocument(doc: TextDocument)
      requires Ready()
      modifies this, document, conn, conn.ws
      ensures Ready() && document == old(document)
      ensures Model() == Sync.HandleClose(old(Model()), doc == document)
    {
      if doc == document && doc.isClosed {
        Cleanup();
      }
    }

    /** The connection's `close` listener. */
    method OnConnectionClose()
      requires Ready()
      modifies this, document, conn, conn.ws
      ensures Ready() && document == old(document)
      ensures Model() == Sync.HandleConnectionClose(old(Model()))
    {
      Cleanup();
    }
  }

  /**
   * The transport and the editor delivering one event to a session: a
   * socket message goes through the connection to the `data` listener, a
   * socket close through the connection to its `close` listener (if
   * registered), and the editor calls only the listeners still registered.
   */
  method Deliver(session: Session, e: Sync.Event)
    requires session.Ready()
    modifies session, session.document, session.conn, session.conn.ws
    ensures session.Ready()
    ensures session.Model() == Sync.Step(old(session.Model()), e)
  {
    match e
    case Inbound(m, o) =>
      session.conn.OnSocketMessage(m);
      var _ := session.OnData(m, o);
    case PeerClose =>
      session.conn.OnSocketClose();
      if session.closeListener {
        session.OnConnectionClose();
      }
    case LocalEdit(t, sels) =>
      if session.document != null && !session.document.isClosed {
        session.document.UserEdit(t, sels);
        if Sync.ChangeSubscription in session.listening {
          session.OnDidChangeTextDocument(session.document);
        }
      }
    case LocalClose =>
      if session.document != null && !session.document.isClosed {
        session.document.UserClose();
        if Sync.CloseSubscription in session.listening {
          session.OnDidCloseTextDocument(session.document);
        }
      }
    case OtherChange =>
      var other := new TextDocument("");
      if Sync.ChangeSubscription in session.listening {
        session.OnDidChangeTextDocument(other);
      }
    case OtherClose =>
      var other := new TextDocument("");
      other.UserClose();
      if Sync.CloseSubscription in session.listening {
        session.OnDidCloseTextDocument(other);
      }
  }
}
