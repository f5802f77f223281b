# XMPP gateway stanza classifier

A Dafny model of the inbound side of the XMPP gateway's protocol handlers
(`sylk/applications/xmppgateway/xmpp/protocols.py`). Every inbound stanza is turned into at most one
gateway notification:

- **Message path** (`MessageProtocol`): `_onMessage` ignores stanzas already
  handled and rewrites an unrecognised `type` to `normal` in place.
  `onMessage` then tries, first match wins: a stanza error (section 8.3 of
  RFC 6120), a chat or normal message (section 5.2.2 of RFC 6121), a chat state
  notification (XEP-0085), a delivery receipt acknowledgement (XEP-0184).
  If none matches, nothing is posted.
- **Presence path** (`PresenceProtocol`, section 3 of RFC 6121): each
  presence handler posts one event. The four subscription handlers share one
  rule, whose subscription type is the stanza's literal `type` attribute.
- **Group context** (`MUCServerProtocol`, XEP-0045): a message is routed on
  its original `type`. Error messages and private messages are dropped, and
  every `groupchat` message is reported. Presence is a binary join or leave.
- **Service discovery** (`DiscoProtocol`, XEP-0030): each `info`/`items`
  request posts an event that holds a freshly created pending result, and
  returns that same result.

Layout:

- `stanzas.dfy` defines the stanza records, the address resolution and the
  first-match search over child elements.
- `events.dfy` defines one `Event` constructor per notification name, plus
  the `Deferred` pending result.
- `message_classifier.dfy`, `presence_classifier.dfy` and
  `group_classifier.dfy` hold the classification as pure functions. Each
  branch is stated by a lemma against a reference definition written without
  the if-chain.
- `protocols.dfy` holds the handler objects. They rewrite the stanza element
  in place and append what they post to a `NotificationCenter` log.

A raised Python exception is modelled as an `Err` outcome, which the handler
methods return as `failure`. Four are modelled:

- an absent `from`/`to` attribute (`KeyError`);
- an address the parser rejects;
- an error message without an `<error/>` child;
- an `<error/>` child without a `type` attribute.

The address parser is a parameter `parse: string -> Option<Uri>`. Nothing is
assumed about it. The model only records what it is applied to: `"xmpp:" + raw`
on the message and presence paths, and the raw value on the disco path.

Points where the code is easy to misread:

- An absent `type` is not rewritten (line 20 lists None among the kept
  types). It stays absent, and
  `MessageClassifier.AbsentTypeActsAsNormal` proves it is classified exactly
  like `normal`.
- `use_receipt` (lines 56-61) looks at the FIRST child in the receipts
  namespace and asks whether it is named `request`; further receipts
  children are never looked at.
- A receipt acknowledgement (lines 84-89) likewise needs the first
  receipts-namespace child to be `received`; a later `received` child does
  not count.
- Unavailable presence (line 112) does not pass `show`/`statuses`; it leaves
  them to the payload constructor's defaults (`Defaulted`).
- A chat-state check on an empty chat message happens inside a loop over
  the children (line 72). Every pass repeats the same search, so the loop
  is equivalent to one search.
  `MessageClassifier.ComposingScan` models that loop and its contract proves it.

## Model

| member | source | states |
|---|---|---|
| Stanzas.FirstWithUri | sylk/applications/xmppgateway/xmpp/protocols.py:57 | the search returns the index of the first child in the namespace (every earlier child lies elsewhere), and stops with nothing exactly when no child is in it |
| Stanzas.ResolveAttr | sylk/applications/xmppgateway/xmpp/protocols.py:33-36 | reading an address attribute succeeds exactly when it is present and `parse("xmpp:" + raw)` succeeds, giving the identity of that parse result; otherwise it raises the missing-attribute error or the parse error for the prefixed string |
| Stanzas.ResolveJid | sylk/applications/xmppgateway/xmpp/protocols.py:222-225 | a disco address resolves exactly when the parser accepts the raw value itself, with no scheme marker; otherwise it raises the parse error for that value |
| MessageClassifier.Normalize | sylk/applications/xmppgateway/xmpp/protocols.py:20-27 | after the rewrite the type is always one of the six recognised values (absent included) |
| MessageClassifier.Rewritten | sylk/applications/xmppgateway/xmpp/protocols.py:22-28 | the rewrite changes only `type`, and only on an unhandled stanza; it keeps recognised and absent types and turns every other type into `normal` |
| MessageClassifier.OnMessage | sylk/applications/xmppgateway/xmpp/protocols.py:30-91 | on an already rewritten stanza: raises exactly when an address does not resolve (the sender's error first) or an error message lacks its `<error/>` child or its `type`; an error message posts only an error event; only the five message events come out |
| MessageClassifier.Receive | sylk/applications/xmppgateway/xmpp/protocols.py:22-91 | a handled stanza posts nothing. An unhandled one raises exactly when an address does not resolve (the sender's error first) or when an error message lacks its `<error/>` child or that child's `type` (each with its own exception). Only the five message events can come out |
| MessageClassifier.OnMessageIsReceive | sylk/applications/xmppgateway/xmpp/protocols.py:30-91 | `onMessage` on a stanza that is not handled and has a recognised or absent type gives exactly the classification `Receive` gives, so every branch lemma about `Receive` describes `onMessage` itself |
| MessageClassifier.ReceiveRewrittenAgain | sylk/applications/xmppgateway/xmpp/protocols.py:22-28 | the rewrite is idempotent, and delivering the rewritten stanza again posts exactly what the original posted |
| MessageClassifier.AbsentTypeActsAsNormal | sylk/applications/xmppgateway/xmpp/protocols.py:20-49 | a stanza without `type` has the same outcome as the same stanza with `type="normal"` |
| MessageClassifier.UnknownTypeActsAsNormal | sylk/applications/xmppgateway/xmpp/protocols.py:25-28 | an unrecognised type has the same outcome as `normal` |
| MessageClassifier.ComposingScan | sylk/applications/xmppgateway/xmpp/protocols.py:71-80 | the loop of repeated searches returns nothing when there are no children, and otherwise the first chat-state child |
| MessageClassifier.ComposingScanFindsFirst | sylk/applications/xmppgateway/xmpp/protocols.py:72-74 | run over the stanza's children the loop equals one search; it finds a chat-state child exactly when one exists, and it finds the first one |
| MessageClassifier.UseReceiptMeaning | sylk/applications/xmppgateway/xmpp/protocols.py:56-61 | `use_receipt` is true exactly when the first receipts-namespace child is named `request`; with no such child it is false |
| MessageClassifier.ReceivedMeaning | sylk/applications/xmppgateway/xmpp/protocols.py:84-89 | the receipt test holds exactly when the first receipts-namespace child is named `received` |
| MessageClassifier.ErrorMessageClassified | sylk/applications/xmppgateway/xmpp/protocols.py:42-47 | an error event is posted iff the stanza is unhandled, resolvable, of type `error` and has a typed `<error/>` child; it carries that error type, the id and one (name, namespace) condition per child in document order; a message of type `error` posts no other event |
| MessageClassifier.ChatOrNormalClassified | sylk/applications/xmppgateway/xmpp/protocols.py:49-68 | a chat event is posted iff the message is unhandled, resolvable, non-empty and of type `chat`; a normal event iff the same holds with type absent, `normal` or unrecognised; both carry the addresses, bodies, id, and the receipt request of the reference definition |
| MessageClassifier.ComposingClassified | sylk/applications/xmppgateway/xmpp/protocols.py:70-80 | a composing indication is posted iff an unhandled, resolvable, empty chat message has a chat-state child; its state is the name of the first such child |
| MessageClassifier.ReceiptClassified | sylk/applications/xmppgateway/xmpp/protocols.py:82-91 | a receipt is posted iff an unhandled, resolvable, empty, non-error message is no chat-state notification, its first receipts-namespace child is `received` and the id is present; the receipt carries that id |
| MessageClassifier.NonEmptyHeadlineIgnored | sylk/applications/xmppgateway/xmpp/protocols.py:49-91 | a non-empty `headline` or `groupchat` message posts nothing on the one-to-one path |
| PresenceClassifier.AvailableReceived | sylk/applications/xmppgateway/xmpp/protocols.py:95-104 | posts exactly when both addresses resolve (otherwise it raises the sender's error first); the event says the sender is available and carries the stanza's show, statuses and id |
| PresenceClassifier.UnavailableReceived | sylk/applications/xmppgateway/xmpp/protocols.py:106-113 | posts exactly when both addresses resolve; the event says the sender is unavailable, carries the id, and leaves show and statuses to the constructor's defaults |
| PresenceClassifier.SubscriptionReceived | sylk/applications/xmppgateway/xmpp/protocols.py:115-123 | posts exactly when both addresses resolve; the subscription type is the stanza's literal `type` attribute |
| PresenceClassifier.ProbeReceived | sylk/applications/xmppgateway/xmpp/protocols.py:137-144 | posts exactly when both addresses resolve; the probe carries the resolved addresses and the id |
| PresenceClassifier.AvailabilityFlag | sylk/applications/xmppgateway/xmpp/protocols.py:95-113 | available and unavailable presence succeed on the same stanzas, and differ only in the availability flag and in show and statuses |
| PresenceClassifier.SubscriptionTypeRoundTrip | sylk/applications/xmppgateway/xmpp/protocols.py:115-135 | whatever the `type` string, the subscription event carries exactly that string, and the rest of the payload does not depend on it |
| PresenceClassifier.ProbeIgnoresDetails | sylk/applications/xmppgateway/xmpp/protocols.py:137-144 | a probe depends only on the addresses and the id |
| GroupClassifier.GroupRewritten | sylk/applications/xmppgateway/xmpp/protocols.py:157-164 | the group rewrite changes only `type`: it leaves handled stanzas, error stanzas and group-recognised types alone, and sets every other type to exactly `normal` |
| GroupClassifier.OnGroupChat | sylk/applications/xmppgateway/xmpp/protocols.py:171-183 | posts exactly when both addresses resolve; the group message carries the addresses, both bodies (absent or not) and the id |
| GroupClassifier.GroupReceive | sylk/applications/xmppgateway/xmpp/protocols.py:157-169 | a handled stanza, an error, or any original type other than `groupchat` posts nothing and raises nothing. The path raises only for a `groupchat` stanza whose addresses do not resolve, sender first. Only group messages come out |
| GroupClassifier.GroupChatClassified | sylk/applications/xmppgateway/xmpp/protocols.py:157-183 | a group message is posted iff the stanza is unhandled, of original type `groupchat` and resolvable, even with both bodies absent; it carries the addresses, the bodies and the id |
| GroupClassifier.GroupRewriteIsRoutingNeutral | sylk/applications/xmppgateway/xmpp/protocols.py:157-169 | routing the rewritten stanza gives the same outcome as routing the original: testing the type before the rewrite changes nothing |
| GroupClassifier.MucAvailableReceived | sylk/applications/xmppgateway/xmpp/protocols.py:185-192 | posts exactly when both addresses resolve; the join event says `available = true`, with no show or status |
| GroupClassifier.MucUnavailableReceived | sylk/applications/xmppgateway/xmpp/protocols.py:194-201 | posts exactly when both addresses resolve; the leave event says `available = false`, with no show or status |
| Protocols.Notifications | sylk/applications/xmppgateway/xmpp/protocols.py:46-201 | an outcome posts at most one notification, and exactly one when it classified something. The notification is named after its event and sent by the handler's parent |
| Protocols.PostOutcome | sylk/applications/xmppgateway/xmpp/protocols.py:46-201 | posting appends the outcome's notification, named after its event and sent by the parent, to the log, or nothing when the outcome raised or classified nothing |
| Protocols.MessageProtocol.ReceiveMessage | sylk/applications/xmppgateway/xmpp/protocols.py:22-28 | the element is rewritten in place as `Rewritten` says, and the log grows by exactly the notification of the stanza's classification |
| Protocols.MessageProtocol.OnMessage | sylk/applications/xmppgateway/xmpp/protocols.py:30-91 | the log grows by exactly the notification of the classification of the element as it now stands |
| Protocols.PresenceProtocol.AvailableReceived | sylk/applications/xmppgateway/xmpp/protocols.py:95-104 | one availability notification is appended, or the exception is returned |
| Protocols.PresenceProtocol.UnavailableReceived | sylk/applications/xmppgateway/xmpp/protocols.py:106-113 | one unavailability notification is appended, or the exception is returned |
| Protocols.PresenceProtocol.ProcessSubscriptionStanza | sylk/applications/xmppgateway/xmpp/protocols.py:115-123 | one subscription-status notification is appended, or the exception is returned |
| Protocols.PresenceProtocol.SubscribedReceived | sylk/applications/xmppgateway/xmpp/protocols.py:125-126 | delegates to the shared subscription rule |
| Protocols.PresenceProtocol.UnsubscribedReceived | sylk/applications/xmppgateway/xmpp/protocols.py:128-129 | delegates to the shared subscription rule |
| Protocols.PresenceProtocol.SubscribeReceived | sylk/applications/xmppgateway/xmpp/protocols.py:131-132 | delegates to the shared subscription rule |
| Protocols.PresenceProtocol.UnsubscribeReceived | sylk/applications/xmppgateway/xmpp/protocols.py:134-135 | delegates to the shared subscription rule |
| Protocols.PresenceProtocol.ProbeReceived | sylk/applications/xmppgateway/xmpp/protocols.py:137-144 | one probe notification is appended, or the exception is returned |
| Protocols.MucServerProtocol.ReceiveMessage | sylk/applications/xmppgateway/xmpp/protocols.py:157-169 | the element is rewritten in place as `GroupRewritten` says (handled and error stanzas untouched), and the log grows by exactly the group classification's notification |
| Protocols.MucServerProtocol.OnGroupChat | sylk/applications/xmppgateway/xmpp/protocols.py:171-183 | one group-chat notification is appended, or the exception is returned |
| Protocols.MucServerProtocol.AvailableReceived | sylk/applications/xmppgateway/xmpp/protocols.py:185-192 | one join notification is appended, or the exception is returned |
| Protocols.MucServerProtocol.UnavailableReceived | sylk/applications/xmppgateway/xmpp/protocols.py:194-201 | one leave notification is appended, or the exception is returned |
| Protocols.DiscoProtocol.Info | sylk/applications/xmppgateway/xmpp/protocols.py:206-230 | succeeds iff both raw addresses parse; then it returns a fresh, unfired pending result, and appends one info-request notification that holds the requestor, the target, the node and that same result; otherwise the log is unchanged |
| Protocols.DiscoProtocol.Items | sylk/applications/xmppgateway/xmpp/protocols.py:232-256 | the same for items requests |
| Protocols.TwoDiscoRequests | sylk/applications/xmppgateway/xmpp/protocols.py:220-256 | two successive requests get distinct pending results, neither of them fired |

## Left out

- Address parsing (`FrozenURI.parse`) and `Identity` live in a file that is not part of this model. The parser is an arbitrary function parameter. `Identity` is a plain wrapper of the parsed address.
- Notification delivery to observers is not modelled: the process-wide notification centre is a log of `(name, sender, data)` entries. Each `Event` constructor carries the notification data's single payload (`error_message`, `message`, `composing_indication`, `receipt` or `presence_stanza`, under a name of its own); the disco constructors carry its four entries `sender`, `target`, `node_identifier` and `deferred`.
- `Deferred` resolution, callbacks and timeouts are not modelled; they are event-loop machinery. Only "a fresh object, not yet fired, returned to the caller" is modelled.
- wokkel dispatch is not modelled. That covers which presence handler runs for which presence type, the parsing of `show`/`statuses`, and `UserPresence`. Each handler is modelled given the parsed stanza it is called with.
- `connectionInitialized` (observer registration for `/message`, lines 153-155) is stream plumbing and is not modelled.
- `msg.html.toXml()` and `unicode(msg.body)` are opaque strings in the stanza record. The record holds `body`, `html` and `error` beside the list of children. The XML library finds them by element name among those children, and that consistency is not modelled.
- The payload constructors of `stanzas.py` are not part of this model. They are plain records, and the defaults that unavailable presence leaves unset are marked `Defaulted`, not given values.
- The receipts and chat-state namespaces take their XEP-0184 and XEP-0085 values, since `stanzas.py` is not part of this model. The classification depends only on their being distinct.
- The disco handlers receive `requestor` and `target` as JID objects; the model represents a JID by its string form, which it hands to the address parser.
- A handler's `parent` object, the sender of every notification, is an opaque handle.
- Exceptions that the payload constructors or `Identity` might raise are not modelled.
