/**
 * The group context (XEP-0045): messages are filtered on their original
 * `type`, only `groupchat` is reported, and presence is a binary join or leave.
 */
module GroupClassifier {
  import opened Wrappers
  import opened Stanzas
  import opened Events

  /** The message types the group path leaves alone. */
  const GROUP_MESSAGE_TYPES: set<Option<string>> := {None, Some("normal"), Some("chat"), Some("groupchat")}

  /** The stanza after the group path's rewrite: handled and error stanzas are left as they are. */
  function GroupRewritten(m: Message): (r: Message)
    ensures r == m.(typeAttr := r.typeAttr)
    ensures m.handled || m.typeAttr == Some("error") || m.typeAttr in GROUP_MESSAGE_TYPES ==> r == m
    ensures !m.handled && m.typeAttr != Some("error") ==> r.typeAttr in GROUP_MESSAGE_TYPES
    ensures !m.handled && m.typeAttr != Some("error") && m.typeAttr !in GROUP_MESSAGE_TYPES ==>
              r.typeAttr == Some("normal")
  {
    if m.handled || m.typeAttr == Some("error") || m.typeAttr in GROUP_MESSAGE_TYPES then m
    else m.(typeAttr := Some("normal"))
  }

  /** `onGroupChat`: a group message carrying whatever bodies the stanza has. */
  function OnGroupChat(parse: Parser, m: Message): (r: Result<Event, Failure>)
    ensures r.Ok? <==> BothResolve(parse, m.fromAttr, m.toAttr)
    ensures r.Err? ==> r.error == PairFailure(parse, m.fromAttr, m.toAttr)
    ensures r.Ok? ==>
              r.value == MucGotGroupChat(GroupChatMessage(
                Addr(parse, m.fromAttr), Addr(parse, m.toAttr), m.body, m.html, m.idAttr))
  {
    var sender :- ResolveAttr(parse, m.fromAttr, "from");
    var recipient :- ResolveAttr(parse, m.toAttr, "to");
    Ok(MucGotGroupChat(GroupChatMessage(sender, recipient, m.body, m.html, m.idAttr)))
  }

  /**
   * `_onMessage` of the group protocol; the routing test reads the `type`
   * before the rewrite. Only an unhandled `groupchat` stanza is looked at:
   * every other one posts nothing and raises nothing.
   */
  function GroupReceive(parse: Parser, m: Message): (r: Result<Option<Event>, Failure>)
    ensures m.handled || m.typeAttr != Some("groupchat") ==> r == Ok(None)
    ensures r.Err? <==> !m.handled && m.typeAttr == Some("groupchat") && !BothResolve(parse, m.fromAttr, m.toAttr)
    ensures r.Err? ==> r.error == PairFailure(parse, m.fromAttr, m.toAttr)
    ensures Posted(r).Some? ==> Posted(r).value.MucGotGroupChat?
  {
    if m.handled then Ok(None)
    else if m.typeAttr == Some("error") then Ok(None)
    else if m.typeAttr == Some("groupchat") then
      var e :- OnGroupChat(parse, GroupRewritten(m));
      Ok(Some(e))
    else
      Ok(None)  // private messages in a group context are dropped
  }

  /** `availableReceived` of the group protocol: a participant joined. */
  function MucAvailableReceived(parse: Parser, s: Presence): (r: Result<Event, Failure>)
    ensures r.Ok? <==> BothResolve(parse, s.fromAttr, s.toAttr)
    ensures r.Err? ==> r.error == PairFailure(parse, s.fromAttr, s.toAttr)
    ensures r.Ok? ==>
              r.value == MucGotPresenceAvailability(MucAvailabilityPresence(
                Addr(parse, s.fromAttr), Addr(parse, s.toAttr), true, s.idAttr))
  {
    var sender :- ResolveAttr(parse, s.fromAttr, "from");
    var recipient :- ResolveAttr(parse, s.toAttr, "to");
    Ok(MucGotPresenceAvailability(MucAvailabilityPresence(sender, recipient, true, s.idAttr)))
  }

  /** `unavailableReceived` of the group protocol: a participant left. */
  function MucUnavailableReceived(parse: Parser, s: Presence): (r: Result<Event, Failure>)
    ensures r.Ok? <==> BothResolve(parse, s.fromAttr, s.toAttr)
    ensures r.Err? ==> r.error == PairFailure(parse, s.fromAttr, s.toAttr)
    ensures r.Ok? ==>
              r.value == MucGotPresenceAvailability(MucAvailabilityPresence(
                Addr(parse, s.fromAttr), Addr(parse, s.toAttr), false, s.idAttr))
  {
    var sender :- ResolveAttr(parse, s.fromAttr, "from");
    var recipient :- ResolveAttr(parse, s.toAttr, "to");
    Ok(MucGotPresenceAvailability(MucAvailabilityPresence(sender, recipient, false, s.idAttr)))
  }

  /** A group message posts exactly when it is an unhandled `groupchat` whose addresses resolve, bodies or not. */
  lemma GroupChatClassified(parse: Parser, m: Message)
    ensures Posted(GroupReceive(parse, m)).Some? <==>
              !m.handled && m.typeAttr == Some("groupchat") && BothResolve(parse, m.fromAttr, m.toAttr)
    ensures Posted(GroupReceive(parse, m)).Some? ==>
              Posted(GroupReceive(parse, m)).value ==
                MucGotGroupChat(GroupChatMessage(Addr(parse, m.fromAttr), Addr(parse, m.toAttr),
                                                 m.body, m.html, m.idAttr))
  {
  }

  /** The rewrite never changes routing: testing the type before or after it gives the same outcome. */
  lemma GroupRewriteIsRoutingNeutral(parse: Parser, m: Message)
    ensures GroupReceive(parse, GroupRewritten(m)) == GroupReceive(parse, m)
  {
  }
}
