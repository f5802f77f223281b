/**
 * The one-to-one message path: `_onMessage` rewrites an unrecognised `type`
 * to `normal` and `onMessage` decides which single event the message stands
 * for, first match wins: an error (RFC 6120, section 8.3), a chat or normal
 * message (RFC 6121, section 5.2.2), a chat state notification (XEP-0085),
 * a delivery receipt (XEP-0184), or nothing.
 */
module MessageClassifier {
  import opened Wrappers
  import opened Stanzas
  import opened Events

  /** The message types `_onMessage` leaves alone; None is an absent `type`. */
  const MESSAGE_TYPES: set<Option<string>> :=
    {None, Some("normal"), Some("chat"), Some("headline"), Some("groupchat"), Some("error")}

  /** The `type` attribute after `_onMessage`'s rewrite. */
  function Normalize(t: Option<string>): (r: Option<string>)
    ensures r in MESSAGE_TYPES
  {
    if t in MESSAGE_TYPES then t else Some("normal")
  }

  /** The stanza after `_onMessage`: only `type` changes, and only on a stanza not yet handled. */
  function Rewritten(m: Message): (r: Message)
    ensures r == m.(typeAttr := r.typeAttr)
    ensures m.handled || m.typeAttr in MESSAGE_TYPES ==> r == m
    ensures !m.handled ==> r.typeAttr in MESSAGE_TYPES
    ensures !m.handled && m.typeAttr !in MESSAGE_TYPES ==> r.typeAttr == Some("normal")
  {
    if m.handled then m else m.(typeAttr := Normalize(m.typeAttr))
  }

  /** Neither a text body nor an HTML body. */
  predicate IsEmpty(m: Message)
  {
    m.body.None? && m.html.None?
  }

  /** The `(name, namespace)` pair of every condition element, in document order. */
  function Conditions(cs: seq<Element>): seq<(string, string)>
  {
    seq(|cs|, i requires 0 <= i < |cs| => (cs[i].name, cs[i].defaultUri))
  }

  /**
   * The loop over the children that looks for a chat state: every pass
   * repeats the same search over all of `cs` and returns on its first hit.
   * Run over the stanza's own children it is equivalent to one search
   * (`ComposingScanFindsFirst`).
   */
  function ComposingScan(cs: seq<Element>, remaining: seq<Element>): (r: Option<nat>)
    ensures r == if remaining == [] then None else FirstWithUri(cs, CHATSTATES_NS)
  {
    if remaining == [] then None
    else
      match FirstWithUri(cs, CHATSTATES_NS)
      case Some(i) => Some(i)
      case None => ComposingScan(cs, remaining[1..])
  }

  /**
   * `onMessage`, applied to a stanza `_onMessage` has already rewritten. It
   * raises exactly when an address does not resolve (the sender is read
   * first) or when an error message lacks its `<error/>` child or that
   * child's `type`; an error message posts only an error event, and only
   * the five message events can come out.
   */
  function OnMessage(parse: Parser, m: Message): (r: Result<Option<Event>, Failure>)
    ensures r.Err? <==>
              !BothResolve(parse, m.fromAttr, m.toAttr) ||
              (m.typeAttr == Some("error") && (m.error.None? || m.error.value.errorType.None?))
    ensures !BothResolve(parse, m.fromAttr, m.toAttr) ==> r == Err(PairFailure(parse, m.fromAttr, m.toAttr))
    ensures m.typeAttr == Some("error") && Posted(r).Some? ==> Posted(r).value.GotErrorMessage?
    ensures Posted(r).Some? ==>
              Posted(r).value.GotErrorMessage? || Posted(r).value.GotChatMessage? ||
              Posted(r).value.GotNormalMessage? || Posted(r).value.GotComposingIndication? ||
              Posted(r).value.GotReceipt?
  {
    var sender :- ResolveAttr(parse, m.fromAttr, "from");
    var recipient :- ResolveAttr(parse, m.toAttr, "to");
    if m.typeAttr == Some("error") then
      match m.error
      case None => Err(NoErrorElement)
      case Some(err) =>
        match err.errorType
        case None => Err(MissingAttribute("type"))
        case Some(errorType) =>
          Ok(Some(GotErrorMessage(
            ErrorStanza("message", sender, recipient, errorType, Conditions(err.children), m.idAttr))))
    else if m.typeAttr in {None, Some("normal"), Some("chat")} && !IsEmpty(m) then
      var useReceipt :=
        match FirstWithUri(m.children, RECEIPTS_NS)
        case None => false
        case Some(i) => m.children[i].name == "request";
      var message := MessagePayload(sender, recipient, m.body, m.html, m.idAttr, useReceipt);
      Ok(Some(if m.typeAttr == Some("chat") then GotChatMessage(message) else GotNormalMessage(message)))
    else if m.typeAttr == Some("chat") && IsEmpty(m) && ComposingScan(m.children, m.children).Some? then
      var state := m.children[ComposingScan(m.children, m.children).value].name;
      Ok(Some(GotComposingIndication(ComposingIndication(sender, recipient, state, m.idAttr))))
    else if IsEmpty(m) then
      match FirstWithUri(m.children, RECEIPTS_NS)
      case None => Ok(None)
      case Some(i) =>
        if m.children[i].name == "received" && m.idAttr.Some? then
          Ok(Some(GotReceipt(Receipt(sender, recipient, m.idAttr.value))))
        else
          Ok(None)
    else
      Ok(None)
  }

  /**
   * `_onMessage`: what one inbound message stanza posts, or the exception it
   * raises. A handled stanza posts nothing; an unhandled one raises exactly
   * when an address does not resolve (the sender is read first) or when an
   * error message lacks its `<error/>` child or that child's `type`; only the
   * five message events can come out.
   */
  function Receive(parse: Parser, m: Message): (r: Result<Option<Event>, Failure>)
    ensures m.handled ==> r == Ok(None)
    ensures r.Err? <==>
              !m.handled &&
              (!BothResolve(parse, m.fromAttr, m.toAttr) ||
               (m.typeAttr == Some("error") && (m.error.None? || m.error.value.errorType.None?)))
    ensures !m.handled && !BothResolve(parse, m.fromAttr, m.toAttr) ==>
              r == Err(PairFailure(parse, m.fromAttr, m.toAttr))
    ensures !m.handled && BothResolve(parse, m.fromAttr, m.toAttr) && m.typeAttr == Some("error") ==>
              (m.error.None? ==> r == Err(NoErrorElement)) &&
              (m.error.Some? && m.error.value.errorType.None? ==> r == Err(MissingAttribute("type")))
    ensures Posted(r).Some? ==>
              Posted(r).value.GotErrorMessage? || Posted(r).value.GotChatMessage? ||
              Posted(r).value.GotNormalMessage? || Posted(r).value.GotComposingIndication? ||
              Posted(r).value.GotReceipt?
  {
    if m.handled then Ok(None) else OnMessage(parse, Rewritten(m))
  }

  // ---------------------------------------------------------------------
  // Reference definitions of each branch, stated without the chain.

  /** The first child in the receipts namespace is a receipt request. */
  ghost predicate RequestsReceipt(cs: seq<Element>)
  {
    exists i :: IsFirst(cs, RECEIPTS_NS, i) && cs[i].name == "request"
  }

  /** The first child in the receipts namespace acknowledges a receipt. */
  ghost predicate AcknowledgesReceipt(cs: seq<Element>)
  {
    exists i :: IsFirst(cs, RECEIPTS_NS, i) && cs[i].name == "received"
  }

  /** The message is looked at at all and its addresses resolve. */
  predicate Classifiable(parse: Parser, m: Message)
  {
    !m.handled && BothResolve(parse, m.fromAttr, m.toAttr)
  }

  predicate IsChatState(m: Message)
  {
    Normalize(m.typeAttr) == Some("chat") && IsEmpty(m) && HasChildIn(m.children, CHATSTATES_NS)
  }

  // ---------------------------------------------------------------------
  // Properties.

  /** Rewriting is idempotent, and delivering the rewritten stanza again posts what the original posts. */
  lemma ReceiveRewrittenAgain(parse: Parser, m: Message)
    ensures Rewritten(Rewritten(m)) == Rewritten(m)
    ensures Receive(parse, Rewritten(m)) == Receive(parse, m)
  {
  }

  /** On a stanza `_onMessage` passes on unchanged, `onMessage` is the whole classification. */
  lemma OnMessageIsReceive(parse: Parser, m: Message)
    requires !m.handled && m.typeAttr in MESSAGE_TYPES
    ensures OnMessage(parse, m) == Receive(parse, m)
  {
  }

  /** An absent `type` and `type="normal"` are classified alike. */
  lemma AbsentTypeActsAsNormal(parse: Parser, m: Message)
    ensures Receive(parse, m.(typeAttr := None)) == Receive(parse, m.(typeAttr := Some("normal")))
  {
  }

  /** An unrecognised `type` is classified as `normal`. */
  lemma UnknownTypeActsAsNormal(parse: Parser, m: Message)
    requires m.typeAttr !in MESSAGE_TYPES
    ensures Receive(parse, m) == Receive(parse, m.(typeAttr := Some("normal")))
  {
  }

  /** The chat state loop finds the first chat state child, whenever there is one. */
  lemma ComposingScanFindsFirst(cs: seq<Element>)
    ensures ComposingScan(cs, cs) == FirstWithUri(cs, CHATSTATES_NS)
    ensures ComposingScan(cs, cs).Some? <==> HasChildIn(cs, CHATSTATES_NS)
    ensures ComposingScan(cs, cs).Some? ==> IsFirst(cs, CHATSTATES_NS, ComposingScan(cs, cs).value)
  {
  }

  /** The receipt flag of a chat or normal message agrees with the reference definition. */
  lemma UseReceiptMeaning(cs: seq<Element>)
    ensures (match FirstWithUri(cs, RECEIPTS_NS) case None => false case Some(i) => cs[i].name == "request")
            == RequestsReceipt(cs)
    ensures !HasChildIn(cs, RECEIPTS_NS) ==> !RequestsReceipt(cs)
  {
    var f := FirstWithUri(cs, RECEIPTS_NS);
    if f.Some? {
      forall i | IsFirst(cs, RECEIPTS_NS, i) ensures i == f.value {
        FirstIsUnique(cs, RECEIPTS_NS, i, f.value);
      }
    }
  }

  /** The receipt branch's test agrees with the reference definition. */
  lemma ReceivedMeaning(cs: seq<Element>)
    ensures (match FirstWithUri(cs, RECEIPTS_NS) case None => false case Some(i) => cs[i].name == "received")
            == AcknowledgesReceipt(cs)
  {
    var f := FirstWithUri(cs, RECEIPTS_NS);
    if f.Some? {
      forall i | IsFirst(cs, RECEIPTS_NS, i) ensures i == f.value {
        FirstIsUnique(cs, RECEIPTS_NS, i, f.value);
      }
    }
  }

  /** An error message posts one error event with its error type and one condition per child. */
  lemma ErrorMessageClassified(parse: Parser, m: Message)
    ensures var e := Posted(Receive(parse, m));
            e.Some? && e.value.GotErrorMessage? <==>
              Classifiable(parse, m) && m.typeAttr == Some("error") &&
              m.error.Some? && m.error.value.errorType.Some?
    ensures var e := Posted(Receive(parse, m));
            e.Some? && e.value.GotErrorMessage? ==>
              var err := e.value.errorMessage;
              err.stanzaType == "message" &&
              err.sender == Addr(parse, m.fromAttr) && err.recipient == Addr(parse, m.toAttr) &&
              err.errorType == m.error.value.errorType.value && err.id == m.idAttr &&
              |err.conditions| == |m.error.value.children| &&
              forall i :: 0 <= i < |err.conditions| ==>
                err.conditions[i] == (m.error.value.children[i].name, m.error.value.children[i].defaultUri)
    ensures m.typeAttr == Some("error") && Posted(Receive(parse, m)).Some? ==>
              Posted(Receive(parse, m)).value.GotErrorMessage?
  {
  }

  /** A non-empty message of type absent, normal or chat posts one chat or normal message. */
  lemma ChatOrNormalClassified(parse: Parser, m: Message)
    ensures var e := Posted(Receive(parse, m));
            e.Some? && e.value.GotChatMessage? <==>
              Classifiable(parse, m) && Normalize(m.typeAttr) == Some("chat") && !IsEmpty(m)
    ensures var e := Posted(Receive(parse, m));
            e.Some? && e.value.GotNormalMessage? <==>
              Classifiable(parse, m) && Normalize(m.typeAttr) in {None, Some("normal")} && !IsEmpty(m)
    ensures var e := Posted(Receive(parse, m));
            e.Some? && (e.value.GotChatMessage? || e.value.GotNormalMessage?) ==>
              e.value.message ==
                MessagePayload(Addr(parse, m.fromAttr), Addr(parse, m.toAttr),
                               m.body, m.html, m.idAttr, RequestsReceipt(m.children))
  {
    UseReceiptMeaning(m.children);
  }

  /** An empty chat message with a chat state child posts the state of the first one. */
  lemma ComposingClassified(parse: Parser, m: Message)
    ensures var e := Posted(Receive(parse, m));
            e.Some? && e.value.GotComposingIndication? <==> Classifiable(parse, m) && IsChatState(m)
    ensures var e := Posted(Receive(parse, m));
            e.Some? && e.value.GotComposingIndication? ==>
              var c := e.value.composingIndication;
              c.sender == Addr(parse, m.fromAttr) && c.recipient == Addr(parse, m.toAttr) && c.id == m.idAttr &&
              forall i :: IsFirst(m.children, CHATSTATES_NS, i) ==> c.state == m.children[i].name
  {
    var mm := Rewritten(m);
    ComposingScanFindsFirst(mm.children);
    var f := ComposingScan(mm.children, mm.children);
    if f.Some? {
      forall i | IsFirst(m.children, CHATSTATES_NS, i) ensures i == f.value {
        FirstIsUnique(m.children, CHATSTATES_NS, i, f.value);
      }
    }
  }

  /** An empty, non-error message that is no chat state posts a receipt exactly when it acknowledges one and has an id. */
  lemma ReceiptClassified(parse: Parser, m: Message)
    ensures var e := Posted(Receive(parse, m));
            e.Some? && e.value.GotReceipt? <==>
              Classifiable(parse, m) && Normalize(m.typeAttr) != Some("error") && IsEmpty(m) && !IsChatState(m) &&
              AcknowledgesReceipt(m.children) && m.idAttr.Some?
    ensures var e := Posted(Receive(parse, m));
            e.Some? && e.value.GotReceipt? ==>
              e.value.receipt == Receipt(Addr(parse, m.fromAttr), Addr(parse, m.toAttr), m.idAttr.value)
  {
    ComposingScanFindsFirst(m.children);
    ReceivedMeaning(m.children);
  }

  /** A non-empty headline or groupchat message posts nothing on the one-to-one path. */
  lemma NonEmptyHeadlineIgnored(parse: Parser, m: Message)
    requires !IsEmpty(m)
    ensures m.typeAttr in {Some("headline"), Some("groupchat")} ==> Posted(Receive(parse, m)) == None
  {
  }
}
