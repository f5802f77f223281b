/**
 * The one-to-one presence path (RFC 6121, section 3): each presence handler
 * builds exactly one event from the stanza it is given, and raises only
 * when an address does not resolve, the sender being read first.
 */
module PresenceClassifier {
  import opened Wrappers
  import opened Stanzas
  import opened Events

  /** `availableReceived`: the sender is available, with its show qualifier and statuses. */
  function AvailableReceived(parse: Parser, s: Presence): (r: Result<Event, Failure>)
    ensures r.Ok? <==> BothResolve(parse, s.fromAttr, s.toAttr)
    ensures r.Err? ==> r.error == PairFailure(parse, s.fromAttr, s.toAttr)
    ensures r.Ok? ==>
              r.value == GotPresenceAvailability(AvailabilityPresence(
                Addr(parse, s.fromAttr), Addr(parse, s.toAttr), true, Passed(s.show), Passed(s.statuses), s.idAttr))
  {
    var sender :- ResolveAttr(parse, s.fromAttr, "from");
    var recipient :- ResolveAttr(parse, s.toAttr, "to");
    Ok(GotPresenceAvailability(
      AvailabilityPresence(sender, recipient, true, Passed(s.show), Passed(s.statuses), s.idAttr)))
  }

  /** `unavailableReceived`: the sender went away; show and statuses are left to the payload's defaults. */
  function UnavailableReceived(parse: Parser, s: Presence): (r: Result<Event, Failure>)
    ensures r.Ok? <==> BothResolve(parse, s.fromAttr, s.toAttr)
    ensures r.Err? ==> r.error == PairFailure(parse, s.fromAttr, s.toAttr)
    ensures r.Ok? ==>
              r.value == GotPresenceAvailability(AvailabilityPresence(
                Addr(parse, s.fromAttr), Addr(parse, s.toAttr), false, Defaulted, Defaulted, s.idAttr))
  {
    var sender :- ResolveAttr(parse, s.fromAttr, "from");
    var recipient :- ResolveAttr(parse, s.toAttr, "to");
    Ok(GotPresenceAvailability(
      AvailabilityPresence(sender, recipient, false, Defaulted, Defaulted, s.idAttr)))
  }

  /** `_process_subscription_stanza`, shared by the four subscription handlers. */
  function SubscriptionReceived(parse: Parser, s: Presence): (r: Result<Event, Failure>)
    ensures r.Ok? <==> BothResolve(parse, s.fromAttr, s.toAttr)
    ensures r.Err? ==> r.error == PairFailure(parse, s.fromAttr, s.toAttr)
    ensures r.Ok? ==>
              r.value == GotPresenceSubscriptionStatus(SubscriptionPresence(
                Addr(parse, s.fromAttr), Addr(parse, s.toAttr), s.typeAttr, s.idAttr))
  {
    var sender :- ResolveAttr(parse, s.fromAttr, "from");
    var recipient :- ResolveAttr(parse, s.toAttr, "to");
    Ok(GotPresenceSubscriptionStatus(SubscriptionPresence(sender, recipient, s.typeAttr, s.idAttr)))
  }

  /** `probeReceived`. */
  function ProbeReceived(parse: Parser, s: Presence): (r: Result<Event, Failure>)
    ensures r.Ok? <==> BothResolve(parse, s.fromAttr, s.toAttr)
    ensures r.Err? ==> r.error == PairFailure(parse, s.fromAttr, s.toAttr)
    ensures r.Ok? ==>
              r.value == GotPresenceProbe(ProbePresence(Addr(parse, s.fromAttr), Addr(parse, s.toAttr), s.idAttr))
  {
    var sender :- ResolveAttr(parse, s.fromAttr, "from");
    var recipient :- ResolveAttr(parse, s.toAttr, "to");
    Ok(GotPresenceProbe(ProbePresence(sender, recipient, s.idAttr)))
  }

  /** Available and unavailable presence differ only in the availability flag and the detail fields. */
  lemma AvailabilityFlag(parse: Parser, s: Presence)
    ensures AvailableReceived(parse, s).Ok? <==> UnavailableReceived(parse, s).Ok?
    ensures AvailableReceived(parse, s).Ok? ==>
              var a := AvailableReceived(parse, s).value.presence;
              var u := UnavailableReceived(parse, s).value.presence;
              a.available && !u.available && u == a.(available := false, show := Defaulted, statuses := Defaulted)
  {
  }

  /** The subscription event carries the literal `type` attribute, whatever it is, and nothing else of the type. */
  lemma SubscriptionTypeRoundTrip(parse: Parser, s: Presence, t: string)
    ensures var e := SubscriptionReceived(parse, s.(typeAttr := Some(t)));
            e.Ok? ==> e.value.subscription.subscriptionType == Some(t)
    ensures SubscriptionReceived(parse, s.(typeAttr := Some(t))).Ok? ==>
              SubscriptionReceived(parse, s.(typeAttr := Some(t))).value ==
                GotPresenceSubscriptionStatus(SubscriptionReceived(parse, s).value.subscription.(subscriptionType := Some(t)))
  {
  }

  /** A probe depends only on the addresses and the id: show, statuses and type do not reach it. */
  lemma ProbeIgnoresDetails(parse: Parser, s: Presence, other: Presence)
    requires s.fromAttr == other.fromAttr && s.toAttr == other.toAttr && s.idAttr == other.idAttr
    ensures ProbeReceived(parse, s) == ProbeReceived(parse, other)
  {
  }
}
