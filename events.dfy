/**
 * The payloads the gateway posts and the notifications that carry them:
 * one `Event` constructor per notification name.
 */
module Events {
  import opened Wrappers
  import opened Stanzas

  /** A received stanza error: the kind of stanza, the error type and the (name, namespace) conditions. */
  datatype ErrorStanza = ErrorStanza(
    stanzaType: string, sender: Identity, recipient: Identity,
    errorType: string, conditions: seq<(string, string)>, id: Option<string>)

  /** A chat or normal message; `useReceipt` says the sender asked for a delivery receipt. */
  datatype MessagePayload = MessagePayload(
    sender: Identity, recipient: Identity,
    body: Option<string>, htmlBody: Option<string>, id: Option<string>, useReceipt: bool)

  /** A chat state notification; `state` is the local name of the chat state element. */
  datatype ComposingIndication = ComposingIndication(
    sender: Identity, recipient: Identity, state: string, id: Option<string>)

  /** A delivery receipt acknowledging the message with id `receiptId`. */
  datatype Receipt = Receipt(sender: Identity, recipient: Identity, receiptId: string)

  /**
   * A constructor argument the handler either passes explicitly or leaves
   * to the payload constructor's default, which is not part of this model.
   */
  datatype Passed<T> = Passed(value: T) | Defaulted

  datatype AvailabilityPresence = AvailabilityPresence(
    sender: Identity, recipient: Identity, available: bool,
    show: Passed<Option<string>>, statuses: Passed<map<Option<string>, string>>, id: Option<string>)

  /** `subscriptionType` is the stanza's literal `type` attribute. */
  datatype SubscriptionPresence = SubscriptionPresence(
    sender: Identity, recipient: Identity, subscriptionType: Option<string>, id: Option<string>)

  datatype ProbePresence = ProbePresence(sender: Identity, recipient: Identity, id: Option<string>)

  datatype GroupChatMessage = GroupChatMessage(
    sender: Identity, recipient: Identity, body: Option<string>, htmlBody: Option<string>, id: Option<string>)

  datatype MucAvailabilityPresence = MucAvailabilityPresence(
    sender: Identity, recipient: Identity, available: bool, id: Option<string>)

  /**
   * The pending result of a service-discovery request, which a subscriber
   * of the request notification fires later; `called` is false until then.
   */
  class Deferred {
    var called: bool

    constructor ()
      ensures !called
    {
      called := false;
    }
  }

  /** The data of one posted notification, one constructor per notification name. */
  datatype Event =
    | GotErrorMessage(errorMessage: ErrorStanza)
    | GotChatMessage(message: MessagePayload)
    | GotNormalMessage(message: MessagePayload)
    | GotComposingIndication(composingIndication: ComposingIndication)
    | GotReceipt(receipt: Receipt)
    | GotPresenceAvailability(presence: AvailabilityPresence)
    | GotPresenceSubscriptionStatus(subscription: SubscriptionPresence)
    | GotPresenceProbe(probe: ProbePresence)
    | MucGotGroupChat(groupMessage: GroupChatMessage)
    | MucGotPresenceAvailability(mucPresence: MucAvailabilityPresence)
    | GotDiscoInfoRequest(sender: Identity, target: Identity, nodeIdentifier: string, deferred: Deferred)
    | GotDiscoItemsRequest(sender: Identity, target: Identity, nodeIdentifier: string, deferred: Deferred)

  /** The notification name under which an event is posted. */
  function NotificationName(e: Event): string
  {
    match e
    case GotErrorMessage(_) => "XMPPGotErrorMessage"
    case GotChatMessage(_) => "XMPPGotChatMessage"
    case GotNormalMessage(_) => "XMPPGotNormalMessage"
    case GotComposingIndication(_) => "XMPPGotComposingIndication"
    case GotReceipt(_) => "XMPPGotReceipt"
    case GotPresenceAvailability(_) => "XMPPGotPresenceAvailability"
    case GotPresenceSubscriptionStatus(_) => "XMPPGotPresenceSubscriptionStatus"
    case GotPresenceProbe(_) => "XMPPGotPresenceProbe"
    case MucGotGroupChat(_) => "XMPPMucGotGroupChat"
    case MucGotPresenceAvailability(_) => "XMPPMucGotPresenceAvailability"
    case GotDiscoInfoRequest(_, _, _, _) => "XMPPGotDiscoInfoRequest"
    case GotDiscoItemsRequest(_, _, _, _) => "XMPPGotDiscoItemsRequest"
  }

  /** The event a handler outcome posts, if any: nothing when it raised or classified nothing. */
  function Posted(r: Result<Option<Event>, Failure>): Option<Event>
  {
    if r.Ok? then r.value else None
  }
}
