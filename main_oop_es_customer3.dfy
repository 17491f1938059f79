/**
 * src/main/java/domain/oop/es/customer/Customer3.java: like the main-tree
 * Customer2, with read-only confirm and change-address handlers, but its
 * apply has no branch for CustomerNameChanged: the name it holds is the one
 * from the last registration.
 */
module MainOopEsCustomer3 {
  import opened Wrappers
  import opened Values
  import opened Events
  import opened Commands
  import opened Projection
  import Decisions

  /** The history with every CustomerNameChanged dropped, order kept. */
  function WithoutNameChanges(events: seq<Event>): (r: seq<Event>)
    ensures |r| <= |events|
    ensures forall i :: 0 <= i < |r| ==> !r[i].CustomerNameChanged?
    decreases |events|
  {
    if events == [] then []
    else
      var init := WithoutNameChanges(events[..|events| - 1]);
      if events[|events| - 1].CustomerNameChanged? then init else init + [events[|events| - 1]]
  }

  /** The name carried by the last CustomerRegistered, if any. */
  function LastRegisteredName(events: seq<Event>): Option<PersonName>
    decreases |events|
  {
    if events == [] then None
    else match events[|events| - 1]
      case CustomerRegistered(_, _, _, n) => Some(n)
      case _ => LastRegisteredName(events[..|events| - 1])
  }

  lemma WithoutNameChangesSnoc(events: seq<Event>, e: Event)
    ensures WithoutNameChanges(events + [e])
         == if e.CustomerNameChanged? then WithoutNameChanges(events) else WithoutNameChanges(events) + [e]
  {
    assert (events + [e])[..|events|] == events;
  }

  /**
   * Ignoring name changes leaves address, hash and flag as the full fold has
   * them, and the name as the last registration set it.
   */
  lemma {:induction false} FoldWithoutNameChanges(events: seq<Event>)
    ensures Fold(WithoutNameChanges(events)) == Fold(events).(name := LastRegisteredName(events))
    decreases |events|
  {
    if events != [] {
      var init, e := events[..|events| - 1], events[|events| - 1];
      assert events == init + [e];
      FoldWithoutNameChanges(init);
      FoldSnoc(Unset, init, e);
      if !e.CustomerNameChanged? {
        FoldSnoc(Unset, WithoutNameChanges(init), e);
      }
    }
  }

  class Customer3 {
    var emailAddress: Option<EmailAddress>
    var confirmationHash: Option<Hash>
    var isEmailAddressConfirmed: bool
    var name: Option<PersonName>

    /** Every event applied to this object so far, in order. */
    ghost var applied: seq<Event>

    /** The fields as a projected state (the class has no id field). */
    function Snapshot(): State
      reads this
    {
      State(None, emailAddress, confirmationHash, name, Some(isEmailAddressConfirmed))
    }

    /** The fields are the projection of everything applied except name changes. */
    ghost predicate Valid()
      reads this
    {
      Snapshot() == Primitive(Fold(WithoutNameChanges(applied)))
    }

    constructor ()
      ensures Valid() && Snapshot() == Fresh && applied == []
    {
      emailAddress, confirmationHash, isEmailAddressConfirmed, name := None, None, false, None;
      applied := [];
    }

    /** The registration event, built from the command alone. */
    static function Register(command: RegisterCustomer): (e: Event)
      ensures e == Decisions.Registered(command)
    {
      CustomerRegistered(command.customerID, command.emailAddress, command.confirmationHash, command.name)
    }

    /** A new aggregate with the history applied. */
    static method Reconstitute(events: seq<Event>) returns (customer: Customer3)
      ensures fresh(customer) && customer.Valid() && customer.applied == events
    {
      customer := new Customer3();
      customer.ApplyAll(events);
    }

    /** A wrong hash fails whatever the flag; a right one confirms once. */
    function ConfirmEmailAddress(command: ConfirmCustomerEmailAddress): (r: seq<Event>)
      requires confirmationHash.Some?
      reads this
      ensures r == Decisions.Confirm(confirmationHash, isEmailAddressConfirmed, command)
    {
      if confirmationHash.value != command.confirmationHash then
        [CustomerEmailAddressConfirmationFailed(command.customerID)]
      else if isEmailAddressConfirmed then
        []
      else
        [CustomerEmailAddressConfirmed(command.customerID)]
    }

    /** The current address is the receiver of the comparison, so it must be set. */
    function ChangeEmailAddress(command: ChangeCustomerEmailAddress): (r: seq<Event>)
      requires emailAddress.Some?
      reads this
      ensures r == Decisions.ChangeEmailAddress(emailAddress, command)
    {
      if emailAddress.value == command.emailAddress then
        []
      else
        [CustomerEmailAddressChanged(command.customerID, command.emailAddress, command.confirmationHash)]
    }

    method ApplyAll(events: seq<Event>)
      requires Valid()
      modifies this
      ensures Valid() && applied == old(applied) + events
    {
      for i := 0 to |events|
        invariant Valid() && applied == old(applied) + events[..i]
      {
        Apply(events[i]);
        assert events[..i + 1] == events[..i] + [events[i]];
      }
      assert events[..|events|] == events;
    }

    /** The usual per-event rules, except that a name change is ignored. */
    method Apply(e: Event)
      requires Valid()
      modifies this
      ensures Valid() && applied == old(applied) + [e]
      ensures Snapshot() == if e.CustomerNameChanged? then old(Snapshot()) else Projection.Apply(old(Snapshot()), e)
    {
      match e {
        case CustomerRegistered(_, email, hash, n) =>
          emailAddress := Some(email);
          confirmationHash := Some(hash);
          name := Some(n);
        case CustomerEmailAddressConfirmed(_) =>
          isEmailAddressConfirmed := true;
        case CustomerEmailAddressChanged(_, email, hash) =>
          emailAddress := Some(email);
          confirmationHash := Some(hash);
          isEmailAddressConfirmed := false;
        case _ =>
      }
      WithoutNameChangesSnoc(applied, e);
      if !e.CustomerNameChanged? {
        PrimitiveFoldSnoc(WithoutNameChanges(applied), e);
      }
      applied := applied + [e];
    }
  }

  /**
   * A reconstituted aggregate holds the fold's address, hash and flag, but
   * the last registered name, whatever name changes followed.
   */
  method ReconstitutedState(events: seq<Event>) returns (s: State)
    ensures s == Primitive(Fold(events)).(name := LastRegisteredName(events))
  {
    var customer := Customer3.Reconstitute(events);
    FoldWithoutNameChanges(events);
    s := customer.Snapshot();
  }

  /** Confirming on a reconstituted aggregate decides on the folded history, name changes or not. */
  method ReconstituteThenConfirm(events: seq<Event>, command: ConfirmCustomerEmailAddress) returns (r: seq<Event>)
    requires Fold(events).confirmationHash.Some?
    ensures r == Decisions.ConfirmOn(Fold(events), command)
  {
    var customer := Customer3.Reconstitute(events);
    FoldWithoutNameChanges(events);
    r := customer.ConfirmEmailAddress(command);
  }

  /** Registered, confirmed, then changed: only the changed hash confirms. */
  method ConfirmAfterChange(id: ID, email: EmailAddress, hash: Hash, name: PersonName,
                            newEmail: EmailAddress, newHash: Hash, command: ConfirmCustomerEmailAddress)
    returns (r: seq<Event>)
    ensures r == if command.confirmationHash == newHash
                 then [CustomerEmailAddressConfirmed(command.customerID)]
                 else [CustomerEmailAddressConfirmationFailed(command.customerID)]
  {
    FoldRegisteredConfirmedChanged(id, email, hash, name, newEmail, newHash);
    r := ReconstituteThenConfirm([CustomerRegistered(id, email, hash, name), CustomerEmailAddressConfirmed(id),
                                  CustomerEmailAddressChanged(id, newEmail, newHash)], command);
  }
}
