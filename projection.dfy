/**
 * The event-sourced projection of a customer: the per-event `apply` that all
 * event-sourced variants share, folded over a history in list order.
 */
module Projection {
  import opened Wrappers
  import opened Values
  import opened Events

  /**
   * The fields of a projected customer. `None` is a field that still holds
   * null; `isConfirmed` is a boxed `Boolean`, so it too starts out null.
   */
  datatype State = State(
    id: Option<ID>,
    emailAddress: Option<EmailAddress>,
    confirmationHash: Option<Hash>,
    name: Option<PersonName>,
    isConfirmed: Option<bool>)

  /** A freshly allocated state object: every field null. */
  const Unset: State := State(None, None, None, None, None)

  /** A freshly allocated aggregate whose flag is a primitive `boolean`: references null, flag false. */
  const Fresh: State := State(None, None, None, None, Some(false))

  /** How a primitive `boolean` field holding the flag reads: only an explicit `true` counts. */
  predicate Confirmed(s: State) {
    s.isConfirmed == Some(true)
  }

  /** The state with its flag read as a primitive `boolean`. */
  function Primitive(s: State): (r: State)
    ensures r.isConfirmed.Some? && Confirmed(r) == Confirmed(s)
    ensures r.(isConfirmed := s.isConfirmed) == s
  {
    s.(isConfirmed := Some(Confirmed(s)))
  }

  /** The effect of one event on the projected fields. */
  function Apply(s: State, e: Event): (r: State)
    ensures r.id == s.id
    ensures e.CustomerEmailAddressConfirmationFailed? ==> r == s
  {
    match e
    case CustomerRegistered(_, email, hash, name) =>
      s.(emailAddress := Some(email), confirmationHash := Some(hash), name := Some(name))
    case CustomerEmailAddressConfirmed(_) =>
      s.(isConfirmed := Some(true))
    case CustomerEmailAddressChanged(_, email, hash) =>
      s.(emailAddress := Some(email), confirmationHash := Some(hash), isConfirmed := Some(false))
    case CustomerNameChanged(_, name) =>
      s.(name := Some(name))
    case CustomerEmailAddressConfirmationFailed(_) =>
      s
  }

  /** `forward`: apply the events to `s` one after another, in list order. */
  function FoldFrom(s: State, events: seq<Event>): (r: State)
    ensures r.id == s.id
    decreases |events|
  {
    if |events| == 0 then s else FoldFrom(Apply(s, events[0]), events[1..])
  }

  /** `reconstitute`: the fold of a whole history from an all-null state. */
  function Fold(events: seq<Event>): (r: State)
    ensures r.id == None
  {
    FoldFrom(Unset, events)
  }

  // Reference definitions: each field is whatever the LAST event that writes it wrote.

  /** The address of the last CustomerRegistered or CustomerEmailAddressChanged event. */
  function LastEmailAddress(events: seq<Event>): Option<EmailAddress> {
    if |events| == 0 then None
    else match events[|events| - 1]
      case CustomerRegistered(_, email, _, _) => Some(email)
      case CustomerEmailAddressChanged(_, email, _) => Some(email)
      case _ => LastEmailAddress(events[..|events| - 1])
  }

  /** The hash of the last CustomerRegistered or CustomerEmailAddressChanged event. */
  function LastConfirmationHash(events: seq<Event>): Option<Hash> {
    if |events| == 0 then None
    else match events[|events| - 1]
      case CustomerRegistered(_, _, hash, _) => Some(hash)
      case CustomerEmailAddressChanged(_, _, hash) => Some(hash)
      case _ => LastConfirmationHash(events[..|events| - 1])
  }

  /** The name of the last CustomerRegistered or CustomerNameChanged event. */
  function LastName(events: seq<Event>): Option<PersonName> {
    if |events| == 0 then None
    else match events[|events| - 1]
      case CustomerRegistered(_, _, _, name) => Some(name)
      case CustomerNameChanged(_, name) => Some(name)
      case _ => LastName(events[..|events| - 1])
  }

  /** Whether the last CustomerEmailAddressConfirmed or CustomerEmailAddressChanged event was a confirmation. */
  function LastConfirmation(events: seq<Event>): Option<bool> {
    if |events| == 0 then None
    else match events[|events| - 1]
      case CustomerEmailAddressConfirmed(_) => Some(true)
      case CustomerEmailAddressChanged(_, _, _) => Some(false)
      case _ => LastConfirmation(events[..|events| - 1])
  }

  /** The events that write the confirmation flag. */
  predicate WritesFlag(e: Event) {
    e.CustomerEmailAddressConfirmed? || e.CustomerEmailAddressChanged?
  }

  /** Folding one more event is applying it to the fold so far. */
  lemma {:induction false} FoldSnoc(s: State, events: seq<Event>, e: Event)
    ensures FoldFrom(s, events + [e]) == Apply(FoldFrom(s, events), e)
    decreases |events|
  {
    if |events| == 0 {
      assert events + [e] == [e];
    } else {
      assert (events + [e])[1..] == events[1..] + [e];
      FoldSnoc(Apply(s, events[0]), events[1..], e);
    }
  }

  /** Folding a concatenation is folding the second part onto the fold of the first. */
  lemma {:induction false} FoldFromAppend(s: State, a: seq<Event>, b: seq<Event>)
    ensures FoldFrom(s, a + b) == FoldFrom(FoldFrom(s, a), b)
    decreases |a|
  {
    if |a| == 0 {
      assert a + b == b;
    } else {
      assert (a + b)[1..] == a[1..] + b;
      FoldFromAppend(Apply(s, a[0]), a[1..], b);
    }
  }

  /** reconstitute(a ++ b) is reconstitute(a) followed by forward(b). */
  lemma FoldSplit(a: seq<Event>, b: seq<Event>)
    ensures Fold(a + b) == FoldFrom(Fold(a), b)
  {
    FoldFromAppend(Unset, a, b);
  }

  /** Folding CustomerRegistered sets address, hash and name and leaves the flag and id alone. */
  lemma FoldRegistered(events: seq<Event>, id: ID, email: EmailAddress, hash: Hash, name: PersonName)
    ensures var before, after := Fold(events), Fold(events + [CustomerRegistered(id, email, hash, name)]);
      && after.emailAddress == Some(email)
      && after.confirmationHash == Some(hash)
      && after.name == Some(name)
      && after.isConfirmed == before.isConfirmed
      && after.id == before.id
  {
    FoldSnoc(Unset, events, CustomerRegistered(id, email, hash, name));
  }

  /** Folding CustomerEmailAddressConfirmed sets the flag to true and nothing else. */
  lemma FoldConfirmed(events: seq<Event>, id: ID)
    ensures Fold(events + [CustomerEmailAddressConfirmed(id)]) == Fold(events).(isConfirmed := Some(true))
  {
    FoldSnoc(Unset, events, CustomerEmailAddressConfirmed(id));
  }

  /** Folding CustomerEmailAddressChanged replaces address and hash and resets the flag; the name stays. */
  lemma FoldChanged(events: seq<Event>, id: ID, email: EmailAddress, hash: Hash)
    ensures var before, after := Fold(events), Fold(events + [CustomerEmailAddressChanged(id, email, hash)]);
      && after.emailAddress == Some(email)
      && after.confirmationHash == Some(hash)
      && after.isConfirmed == Some(false)
      && after.name == before.name
      && after.id == before.id
  {
    FoldSnoc(Unset, events, CustomerEmailAddressChanged(id, email, hash));
  }

  /** Folding CustomerNameChanged replaces the name only. */
  lemma FoldNameChanged(events: seq<Event>, id: ID, name: PersonName)
    ensures Fold(events + [CustomerNameChanged(id, name)]) == Fold(events).(name := Some(name))
  {
    FoldSnoc(Unset, events, CustomerNameChanged(id, name));
  }

  /** Folding CustomerEmailAddressConfirmationFailed changes nothing. */
  lemma FoldConfirmationFailed(events: seq<Event>, id: ID)
    ensures Fold(events + [CustomerEmailAddressConfirmationFailed(id)]) == Fold(events)
  {
    FoldSnoc(Unset, events, CustomerEmailAddressConfirmationFailed(id));
  }

  /** Registered, Confirmed, then Changed: the changed address and hash, the registered name, the flag down. */
  lemma FoldRegisteredConfirmedChanged(id: ID, email: EmailAddress, hash: Hash, name: PersonName,
                                       newEmail: EmailAddress, newHash: Hash)
    ensures Fold([CustomerRegistered(id, email, hash, name), CustomerEmailAddressConfirmed(id),
                  CustomerEmailAddressChanged(id, newEmail, newHash)])
         == State(None, Some(newEmail), Some(newHash), Some(name), Some(false))
  {
    var registered := [CustomerRegistered(id, email, hash, name)];
    var confirmed := registered + [CustomerEmailAddressConfirmed(id)];
    FoldSnoc(Unset, [], registered[0]);
    assert [] + registered == registered;
    FoldConfirmed(registered, id);
    FoldChanged(confirmed, id, newEmail, newHash);
    assert confirmed + [CustomerEmailAddressChanged(id, newEmail, newHash)]
        == [CustomerRegistered(id, email, hash, name), CustomerEmailAddressConfirmed(id),
            CustomerEmailAddressChanged(id, newEmail, newHash)];
  }

  /** Each projected field is the value written by the last event that writes it. */
  lemma {:induction false} FoldIsLastWrites(events: seq<Event>)
    ensures Fold(events) == State(None, LastEmailAddress(events), LastConfirmationHash(events),
                                  LastName(events), LastConfirmation(events))
    decreases |events|
  {
    if |events| > 0 {
      var init, e := events[..|events| - 1], events[|events| - 1];
      assert events == init + [e];
      FoldIsLastWrites(init);
      FoldSnoc(Unset, init, e);
    }
  }

  /** The last confirmation is unset exactly when no event writes the flag. */
  lemma {:induction false} LastConfirmationUnset(events: seq<Event>)
    ensures LastConfirmation(events) == None <==> forall i | 0 <= i < |events| :: !WritesFlag(events[i])
    decreases |events|
  {
    if |events| > 0 {
      var init := events[..|events| - 1];
      LastConfirmationUnset(init);
      if !WritesFlag(events[|events| - 1]) {
        assert forall i | 0 <= i < |init| :: init[i] == events[i];
      }
    }
  }

  /** The boxed flag stays null until a CustomerEmailAddressConfirmed or CustomerEmailAddressChanged event is folded. */
  lemma FlagUnsetUntilWritten(events: seq<Event>)
    ensures Fold(events).isConfirmed == None <==> forall i | 0 <= i < |events| :: !WritesFlag(events[i])
  {
    FoldIsLastWrites(events);
    LastConfirmationUnset(events);
  }

  /** Reading the flag as a primitive commutes with folding. */
  lemma {:induction false} FoldFromPrimitive(s: State, events: seq<Event>)
    ensures FoldFrom(Primitive(s), events) == Primitive(FoldFrom(s, events))
    decreases |events|
  {
    if |events| > 0 {
      assert Apply(Primitive(s), events[0]) == Primitive(Apply(s, events[0]));
      FoldFromPrimitive(Apply(s, events[0]), events[1..]);
    }
  }

  /**
   * An object with a primitive flag that folds `b` on top of the projection
   * of `a` holds the projection of `a ++ b`.
   */
  lemma PrimitiveFoldAppend(a: seq<Event>, b: seq<Event>)
    ensures FoldFrom(Primitive(Fold(a)), b) == Primitive(Fold(a + b))
  {
    FoldSplit(a, b);
    FoldFromPrimitive(Fold(a), b);
  }

  /** The one-event case of PrimitiveFoldAppend. */
  lemma PrimitiveFoldSnoc(a: seq<Event>, e: Event)
    ensures Apply(Primitive(Fold(a)), e) == Primitive(Fold(a + [e]))
  {
    FoldSnoc(Unset, a, e);
    assert Apply(Primitive(Fold(a)), e) == Primitive(Apply(Fold(a), e));
  }

  /** Events folded onto a state never clear a field that is set. */
  lemma {:induction false} FoldFromKeepsSet(s: State, events: seq<Event>)
    ensures s.emailAddress.Some? ==> FoldFrom(s, events).emailAddress.Some?
    ensures s.confirmationHash.Some? ==> FoldFrom(s, events).confirmationHash.Some?
    ensures s.name.Some? ==> FoldFrom(s, events).name.Some?
    decreases |events|
  {
    if |events| > 0 {
      FoldFromKeepsSet(Apply(s, events[0]), events[1..]);
    }
  }

  /** A history that starts with CustomerRegistered projects to a state whose address, hash and name are set. */
  lemma RegisteredFirstIsSet(events: seq<Event>)
    requires |events| > 0 && events[0].CustomerRegistered?
    ensures Fold(events).emailAddress.Some?
    ensures Fold(events).confirmationHash.Some?
    ensures Fold(events).name.Some?
  {
    FoldFromKeepsSet(Apply(Unset, events[0]), events[1..]);
  }
}
