/**
 * The protocol handler objects of the gateway's XMPP side. Each handler
 * classifies what it is given and posts the resulting notification to the
 * shared notification centre, modelled as a log of posted notifications.
 */
module Protocols {
  import opened Wrappers
  import opened Stanzas
  import opened Events
  import MessageClassifier
  import PresenceClassifier
  import GroupClassifier

  /** Identifies a handler's parent (its stream), which is the sender of every notification it posts. */
  type Handle = nat

  /** One posted notification: its name, its sender and its data. */
  datatype Notification = Notification(name: string, sender: Handle, data: Event)

  /** The process-wide notification centre; delivery to observers is not modelled. */
  class NotificationCenter {
    var log: seq<Notification>

    constructor ()
      ensures log == []
    {
      log := [];
    }

    method PostNotification(name: string, sender: Handle, data: Event)
      modifies this
      ensures log == old(log) + [Notification(name, sender, data)]
    {
      log := log + [Notification(name, sender, data)];
    }
  }

  /**
   * The notifications that posting an outcome from `parent` appends: at most
   * one, none when it raised or classified nothing, always named after its
   * event and sent by `parent`.
   */
  function Notifications(parent: Handle, r: Result<Option<Event>, Failure>): (ns: seq<Notification>)
    ensures |ns| <= 1
    ensures |ns| == 1 <==> Posted(r).Some?
    ensures forall n :: n in ns ==> n.sender == parent && n.name == NotificationName(n.data) && Posted(r) == Some(n.data)
  {
    match Posted(r)
    case None => []
    case Some(e) => [Notification(NotificationName(e), parent, e)]
  }

  /** The exception an outcome lets escape, if any. */
  function Raised(r: Result<Option<Event>, Failure>): Option<Failure>
  {
    if r.Err? then Some(r.error) else None
  }

  /** A handler that always builds one event, seen as an outcome posting at most one. */
  function AtMostOne(r: Result<Event, Failure>): Result<Option<Event>, Failure>
  {
    match r
    case Err(f) => Err(f)
    case Ok(e) => Ok(Some(e))
  }

  /** Posts the event of an outcome, if any, and hands back the exception it raised, if any. */
  method PostOutcome(center: NotificationCenter, parent: Handle, r: Result<Option<Event>, Failure>)
    returns (failure: Option<Failure>)
    modifies center
    ensures center.log == old(center.log) + Notifications(parent, r)
    ensures failure == Raised(r)
  {
    failure := None;
    match r {
      case Err(f) =>
        failure := Some(f);
      case Ok(None) =>
      case Ok(Some(e)) =>
        center.PostNotification(NotificationName(e), parent, e);
    }
  }

  /** A stanza element as the stream delivers it; a handler may rewrite its attributes in place. */
  class MessageElement {
    var stanza: Message

    constructor (m: Message)
      ensures stanza == m
    {
      stanza := m;
    }
  }

  /** The one-to-one message handler. */
  class MessageProtocol {
    const parent: Handle
    const center: NotificationCenter

    constructor (parent: Handle, center: NotificationCenter)
      ensures this.parent == parent && this.center == center
    {
      this.parent := parent;
      this.center := center;
    }

    /** `_onMessage`: rewrites an unrecognised type to `normal` in place, then classifies. */
    method ReceiveMessage(parse: Parser, msg: MessageElement) returns (failure: Option<Failure>)
      modifies msg, center
      ensures msg.stanza == MessageClassifier.Rewritten(old(msg.stanza))
      ensures center.log == old(center.log) + Notifications(parent, MessageClassifier.Receive(parse, old(msg.stanza)))
      ensures failure == Raised(MessageClassifier.Receive(parse, old(msg.stanza)))
    {
      if msg.stanza.handled {
        return None;
      }
      if msg.stanza.typeAttr !in MessageClassifier.MESSAGE_TYPES {
        msg.stanza := msg.stanza.(typeAttr := Some("normal"));
      }
      failure := OnMessage(parse, msg);
    }

    /** `onMessage`: posts the event the stanza stands for, if any. */
    method OnMessage(parse: Parser, msg: MessageElement) returns (failure: Option<Failure>)
      modifies center
      ensures center.log == old(center.log) + Notifications(parent, MessageClassifier.OnMessage(parse, msg.stanza))
      ensures failure == Raised(MessageClassifier.OnMessage(parse, msg.stanza))
    {
      failure := PostOutcome(center, parent, MessageClassifier.OnMessage(parse, msg.stanza));
    }
  }

  /** The one-to-one presence handler; which handler runs for which presence type is the caller's choice. */
  class PresenceProtocol {
    const parent: Handle
    const center: NotificationCenter

    constructor (parent: Handle, center: NotificationCenter)
      ensures this.parent == parent && this.center == center
    {
      this.parent := parent;
      this.center := center;
    }

    method AvailableReceived(parse: Parser, s: Presence) returns (failure: Option<Failure>)
      modifies center
      ensures center.log == old(center.log) + Notifications(parent, AtMostOne(PresenceClassifier.AvailableReceived(parse, s)))
      ensures failure == Raised(AtMostOne(PresenceClassifier.AvailableReceived(parse, s)))
    {
      failure := PostOutcome(center, parent, AtMostOne(PresenceClassifier.AvailableReceived(parse, s)));
    }

    method UnavailableReceived(parse: Parser, s: Presence) returns (failure: Option<Failure>)
      modifies center
      ensures center.log == old(center.log) + Notifications(parent, AtMostOne(PresenceClassifier.UnavailableReceived(parse, s)))
      ensures failure == Raised(AtMostOne(PresenceClassifier.UnavailableReceived(parse, s)))
    {
      failure := PostOutcome(center, parent, AtMostOne(PresenceClassifier.UnavailableReceived(parse, s)));
    }

    /** `_process_subscription_stanza`. */
    method ProcessSubscriptionStanza(parse: Parser, s: Presence) returns (failure: Option<Failure>)
      modifies center
      ensures center.log == old(center.log) + Notifications(parent, AtMostOne(PresenceClassifier.SubscriptionReceived(parse, s)))
      ensures failure == Raised(AtMostOne(PresenceClassifier.SubscriptionReceived(parse, s)))
    {
      failure := PostOutcome(center, parent, AtMostOne(PresenceClassifier.SubscriptionReceived(parse, s)));
    }

    method SubscribedReceived(parse: Parser, s: Presence) returns (failure: Option<Failure>)
      modifies center
      ensures center.log == old(center.log) + Notifications(parent, AtMostOne(PresenceClassifier.SubscriptionReceived(parse, s)))
      ensures failure == Raised(AtMostOne(PresenceClassifier.SubscriptionReceived(parse, s)))
    {
      failure := ProcessSubscriptionStanza(parse, s);
    }

    method UnsubscribedReceived(parse: Parser, s: Presence) returns (failure: Option<Failure>)
      modifies center
      ensures center.log == old(center.log) + Notifications(parent, AtMostOne(PresenceClassifier.SubscriptionReceived(parse, s)))
      ensures failure == Raised(AtMostOne(PresenceClassifier.SubscriptionReceived(parse, s)))
    {
      failure := ProcessSubscriptionStanza(parse, s);
    }

    method SubscribeReceived(parse: Parser, s: Presence) returns (failure: Option<Failure>)
      modifies center
      ensures center.log == old(center.log) + Notifications(parent, AtMostOne(PresenceClassifier.SubscriptionReceived(parse, s)))
      ensures failure == Raised(AtMostOne(PresenceClassifier.SubscriptionReceived(parse, s)))
    {
      failure := ProcessSubscriptionStanza(parse, s);
    }

    method UnsubscribeReceived(parse: Parser, s: Presence) returns (failure: Option<Failure>)
      modifies center
      ensures center.log == old(center.log) + Notifications(parent, AtMostOne(PresenceClassifier.SubscriptionReceived(parse, s)))
      ensures failure == Raised(AtMostOne(PresenceClassifier.SubscriptionReceived(parse, s)))
    {
      failure := ProcessSubscriptionStanza(parse, s);
    }

    method ProbeReceived(parse: Parser, s: Presence) returns (failure: Option<Failure>)
      modifies center
      ensures center.log == old(center.log) + Notifications(parent, AtMostOne(PresenceClassifier.ProbeReceived(parse, s)))
      ensures failure == Raised(AtMostOne(PresenceClassifier.ProbeReceived(parse, s)))
    {
      failure := PostOutcome(center, parent, AtMostOne(PresenceClassifier.ProbeReceived(parse, s)));
    }
  }

  /** The group-chat (multi-user chat) handler. */
  class MucServerProtocol {
    const parent: Handle
    const center: NotificationCenter

    constructor (parent: Handle, center: NotificationCenter)
      ensures this.parent == parent && this.center == center
    {
      this.parent := parent;
      this.center := center;
    }

    /** `_onMessage`: drops handled and error stanzas, rewrites an unrecognised type, reports only `groupchat`. */
    method ReceiveMessage(parse: Parser, msg: MessageElement) returns (failure: Option<Failure>)
      modifies msg, center
      ensures msg.stanza == GroupClassifier.GroupRewritten(old(msg.stanza))
      ensures center.log == old(center.log) + Notifications(parent, GroupClassifier.GroupReceive(parse, old(msg.stanza)))
      ensures failure == Raised(GroupClassifier.GroupReceive(parse, old(msg.stanza)))
    {
      if msg.stanza.handled {
        return None;
      }
      var messageType := msg.stanza.typeAttr;
      if messageType == Some("error") {
        return None;
      }
      if messageType !in GroupClassifier.GROUP_MESSAGE_TYPES {
        msg.stanza := msg.stanza.(typeAttr := Some("normal"));
      }
      if messageType == Some("groupchat") {
        failure := OnGroupChat(parse, msg);
      } else {
        failure := None;
      }
    }

    method OnGroupChat(parse: Parser, msg: MessageElement) returns (failure: Option<Failure>)
      modifies center
      ensures center.log == old(center.log) + Notifications(parent, AtMostOne(GroupClassifier.OnGroupChat(parse, msg.stanza)))
      ensures failure == Raised(AtMostOne(GroupClassifier.OnGroupChat(parse, msg.stanza)))
    {
      failure := PostOutcome(center, parent, AtMostOne(GroupClassifier.OnGroupChat(parse, msg.stanza)));
    }

    method AvailableReceived(parse: Parser, s: Presence) returns (failure: Option<Failure>)
      modifies center
      ensures center.log == old(center.log) + Notifications(parent, AtMostOne(GroupClassifier.MucAvailableReceived(parse, s)))
      ensures failure == Raised(AtMostOne(GroupClassifier.MucAvailableReceived(parse, s)))
    {
      failure := PostOutcome(center, parent, AtMostOne(GroupClassifier.MucAvailableReceived(parse, s)));
    }

    method UnavailableReceived(parse: Parser, s: Presence) returns (failure: Option<Failure>)
      modifies center
      ensures center.log == old(center.log) + Notifications(parent, AtMostOne(GroupClassifier.MucUnavailableReceived(parse, s)))
      ensures failure == Raised(AtMostOne(GroupClassifier.MucUnavailableReceived(parse, s)))
    {
      failure := PostOutcome(center, parent, AtMostOne(GroupClassifier.MucUnavailableReceived(parse, s)));
    }
  }

  /** The service-discovery handler (XEP-0030): every request becomes an event holding a fresh pending result. */
  class DiscoProtocol {
    const parent: Handle
    const center: NotificationCenter

    constructor (parent: Handle, center: NotificationCenter)
      ensures this.parent == parent && this.center == center
    {
      this.parent := parent;
      this.center := center;
    }

    /** `info`: posts an info request holding a new pending result and returns that same result. */
    method Info(parse: Parser, requestor: string, target: string, nodeIdentifier: string)
      returns (r: Result<Deferred, Failure>)
      modifies center
      ensures r.Ok? <==> parse(requestor).Some? && parse(target).Some?
      ensures r.Err? ==>
                r.error == AddressParseError(if parse(requestor).None? then requestor else target) &&
                center.log == old(center.log)
      ensures r.Ok? ==>
                fresh(r.value) && !r.value.called &&
                center.log == old(center.log) +
                  [Notification("XMPPGotDiscoInfoRequest", parent,
                     GotDiscoInfoRequest(Identity(parse(requestor).value), Identity(parse(target).value),
                                         nodeIdentifier, r.value))]
    {
      var d := new Deferred();
      var sender := ResolveJid(parse, requestor);
      if sender.Err? {
        return Err(sender.error);
      }
      var targetIdentity := ResolveJid(parse, target);
      if targetIdentity.Err? {
        return Err(targetIdentity.error);
      }
      var e := GotDiscoInfoRequest(sender.value, targetIdentity.value, nodeIdentifier, d);
      center.PostNotification(NotificationName(e), parent, e);
      r := Ok(d);
    }

    /** `items`: posts an items request holding a new pending result and returns that same result. */
    method Items(parse: Parser, requestor: string, target: string, nodeIdentifier: string)
      returns (r: Result<Deferred, Failure>)
      modifies center
      ensures r.Ok? <==> parse(requestor).Some? && parse(target).Some?
      ensures r.Err? ==>
                r.error == AddressParseError(if parse(requestor).None? then requestor else target) &&
                center.log == old(center.log)
      ensures r.Ok? ==>
                fresh(r.value) && !r.value.called &&
                center.log == old(center.log) +
                  [Notification("XMPPGotDiscoItemsRequest", parent,
                     GotDiscoItemsRequest(Identity(parse(requestor).value), Identity(parse(target).value),
                                          nodeIdentifier, r.value))]
    {
      var d := new Deferred();
      var sender := ResolveJid(parse, requestor);
      if sender.Err? {
        return Err(sender.error);
      }
      var targetIdentity := ResolveJid(parse, target);
      if targetIdentity.Err? {
        return Err(targetIdentity.error);
      }
      var e := GotDiscoItemsRequest(sender.value, targetIdentity.value, nodeIdentifier, d);
      center.PostNotification(NotificationName(e), parent, e);
      r := Ok(d);
    }
  }

  /** Two disco requests in a row never share a pending result, and the second leaves the first unfired. */
  method TwoDiscoRequests(disco: DiscoProtocol, parse: Parser, requestor: string, target: string, node: string)
    returns (first: Result<Deferred, Failure>, second: Result<Deferred, Failure>)
    modifies disco.center
    ensures first.Ok? && second.Ok? ==> first.value != second.value && !first.value.called && !second.value.called
  {
    first := disco.Info(parse, requestor, target, node);
    second := disco.Items(parse, requestor, target, node);
  }
}
