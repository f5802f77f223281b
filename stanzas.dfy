/**
 * Inbound stanzas as the XML layer hands them to the gateway's protocol
 * handlers, the addresses built from them, and the exceptions a handler
 * can raise while reading them.
 */
module Stanzas {
  import opened Wrappers

  /** Namespace of message delivery receipts (XEP-0184). */
  const RECEIPTS_NS: string := "urn:xmpp:receipts"
  /** Namespace of chat state notifications (XEP-0085). */
  const CHATSTATES_NS: string := "http://jabber.org/protocol/chatstates"
  /** Scheme marker put in front of raw addresses on the message and presence paths. */
  const XMPP_SCHEME: string := "xmpp:"

  /** A child element: its namespace, the default namespace in scope for it, and its local name. */
  datatype Element = Element(uri: string, defaultUri: string, name: string)

  /** The `<error/>` child of an error message: its `type` attribute and its children (the conditions). */
  datatype ErrorElement = ErrorElement(errorType: Option<string>, children: seq<Element>)

  /**
   * A `<message/>` stanza. `body` is the text of the first `<body/>` child and
   * `html` the serialised first `<html/>` child, both opaque; `error` is the
   * first `<error/>` child; `children` are all child elements in document order.
   */
  datatype Message = Message(
    handled: bool,
    fromAttr: Option<string>,
    toAttr: Option<string>,
    typeAttr: Option<string>,
    idAttr: Option<string>,
    body: Option<string>,
    html: Option<string>,
    error: Option<ErrorElement>,
    children: seq<Element>)

  /**
   * A parsed `<presence/>` stanza: the attributes of its element, its `show`
   * qualifier and its status texts keyed by language tag (None: no tag).
   */
  datatype Presence = Presence(
    fromAttr: Option<string>,
    toAttr: Option<string>,
    idAttr: Option<string>,
    typeAttr: Option<string>,
    show: Option<string>,
    statuses: map<Option<string>, string>)

  /** A structured address, as the address parser produces it. */
  datatype Uri = Uri(scheme: string, user: string, host: string, resource: Option<string>)

  /** The identity of a party of an event. */
  datatype Identity = Identity(uri: Uri)

  /** The address parser; `None` stands for a parse error. Nothing is assumed about it. */
  type Parser = string -> Option<Uri>

  /** The exceptions a handler lets escape to its caller. */
  datatype Failure =
    | MissingAttribute(attr: string)     // `element[attr]` on an absent attribute
    | AddressParseError(raw: string)     // the address parser rejected `raw`
    | NoErrorElement                     // an error message without an `<error/>` child

  /** Reference definition: attribute `raw` is present and resolves after the scheme marker. */
  predicate Resolves(parse: Parser, raw: Option<string>)
  {
    raw.Some? && parse(XMPP_SCHEME + raw.value).Some?
  }

  /** Reference definition: the identity a resolving attribute stands for. */
  function Addr(parse: Parser, raw: Option<string>): Identity
    requires Resolves(parse, raw)
  {
    Identity(parse(XMPP_SCHEME + raw.value).value)
  }

  /** The exception that reading attribute `attr` holding `raw` raises when it does not resolve. */
  function AttrFailure(raw: Option<string>, attr: string): Failure
  {
    if raw.None? then MissingAttribute(attr) else AddressParseError(XMPP_SCHEME + raw.value)
  }

  /** Both the `from` and the `to` attribute resolve. */
  predicate BothResolve(parse: Parser, fromAttr: Option<string>, toAttr: Option<string>)
  {
    Resolves(parse, fromAttr) && Resolves(parse, toAttr)
  }

  /** The exception a handler raises when the addresses do not both resolve: the sender is read first. */
  function PairFailure(parse: Parser, fromAttr: Option<string>, toAttr: Option<string>): Failure
  {
    if !Resolves(parse, fromAttr) then AttrFailure(fromAttr, "from") else AttrFailure(toAttr, "to")
  }

  /** Reads attribute `attr` holding `raw` and resolves it with the scheme marker in front. */
  function ResolveAttr(parse: Parser, raw: Option<string>, attr: string): (r: Result<Identity, Failure>)
    ensures r.Ok? <==> Resolves(parse, raw)
    ensures r.Ok? ==> r.value == Addr(parse, raw)
    ensures r.Err? ==> r.error == AttrFailure(raw, attr)
  {
    match raw
    case None => Err(MissingAttribute(attr))
    case Some(s) =>
      match parse(XMPP_SCHEME + s)
      case None => Err(AddressParseError(XMPP_SCHEME + s))
      case Some(u) => Ok(Identity(u))
  }

  /** Resolves an already structured address as it is, without the scheme marker (disco path). */
  function ResolveJid(parse: Parser, raw: string): (r: Result<Identity, Failure>)
    ensures r.Ok? <==> parse(raw).Some?
    ensures r.Ok? ==> r.value == Identity(parse(raw).value)
    ensures r.Err? ==> r.error == AddressParseError(raw)
  {
    match parse(raw)
    case None => Err(AddressParseError(raw))
    case Some(u) => Ok(Identity(u))
  }

  /** `i` is the position of the first child in namespace `ns`. */
  predicate IsFirst(cs: seq<Element>, ns: string, i: int)
  {
    0 <= i < |cs| && cs[i].uri == ns && forall j :: 0 <= j < i ==> cs[j].uri != ns
  }

  /** Some child lies in namespace `ns`. */
  predicate HasChildIn(cs: seq<Element>, ns: string)
  {
    exists i :: 0 <= i < |cs| && cs[i].uri == ns
  }

  /**
   * The search `next(c for c in elements if c.uri == ns)`: the position of
   * the first child in namespace `ns`, or None where the search stops.
   */
  function FirstWithUri(cs: seq<Element>, ns: string): (r: Option<nat>)
    ensures r.Some? ==> IsFirst(cs, ns, r.value)
    ensures r.None? <==> !HasChildIn(cs, ns)
  {
    if cs == [] then None
    else if cs[0].uri == ns then Some(0)
    else
      match FirstWithUri(cs[1..], ns)
      case None =>
        assert forall j :: 0 < j < |cs| ==> cs[j] == cs[1..][j - 1];
        None
      case Some(i) =>
        assert forall j :: 0 < j <= i ==> cs[j] == cs[1..][j - 1];
        Some(i + 1)
  }

  /** The first child in a namespace is unique, so any search result names it. */
  lemma FirstIsUnique(cs: seq<Element>, ns: string, i: int, k: int)
    requires IsFirst(cs, ns, i) && IsFirst(cs, ns, k)
    ensures i == k
  {
  }
}
