/**
 * src/main/java/domain/oop/es/customer/Customer2.java: an aggregate rebuilt
 * by an in-place apply loop, whose handlers only read the fields and return
 * their decision; the aggregate is never updated by them.
 */
module MainOopEsCustomer2 {
  import opened Wrappers
  import opened Values
  import opened Events
  import opened Commands
  import opened Projection
  import Decisions

  class Customer2 {
    var emailAddress: Option<EmailAddress>
    var confirmationHash: Option<Hash>
    var isEmailAddressConfirmed: bool
    var name: Option<PersonName>

    /** Every event applied to this object so far, in order. */
    ghost var applied: seq<Event>

    /** The fields as a projected state (the class has no id field). */
    function Snapshot(): State
      reads this
    {
      State(None, emailAddress, confirmationHash, name, Some(isEmailAddressConfirmed))
    }

    /** The fields are the projection of everything applied. */
    ghost predicate Valid()
      reads this
    {
      Snapshot() == Primitive(Fold(applied))
    }

    constructor ()
      ensures Valid() && Snapshot() == Fresh && applied == []
    {
      emailAddress, confirmationHash, isEmailAddressConfirmed, name := None, None, false, None;
      applied := [];
    }

    /** The registration event, built from the command alone. */
    static function Register(command: RegisterCustomer): (e: Event)
      ensures e == Decisions.Registered(command)
    {
      CustomerRegistered(command.customerID, command.emailAddress, command.confirmationHash, command.name)
    }

    /** A new aggregate with the history applied. */
    static method Reconstitute(events: seq<Event>) returns (customer: Customer2)
      ensures fresh(customer) && customer.Valid() && customer.applied == events
      ensures customer.Snapshot() == Primitive(Fold(events))
    {
      customer := new Customer2();
      customer.ApplyAll(events);
    }

    /** A wrong hash fails whatever the flag; a right one confirms once. */
    function ConfirmEmailAddress(command: ConfirmCustomerEmailAddress): (r: seq<Event>)
      requires confirmationHash.Some?
      reads this
      ensures r == Decisions.Confirm(confirmationHash, isEmailAddressConfirmed, command)
    {
      if confirmationHash.value != command.confirmationHash then
        [CustomerEmailAddressConfirmationFailed(command.customerID)]
      else if isEmailAddressConfirmed then
        []
      else
        [CustomerEmailAddressConfirmed(command.customerID)]
    }

    /** The address comparison tolerates an unset address, which counts as different. */
    function ChangeEmailAddress(command: ChangeCustomerEmailAddress): (r: seq<Event>)
      reads this
      ensures r == Decisions.ChangeEmailAddress(emailAddress, command)
    {
      if Some(command.emailAddress) == emailAddress then
        []
      else
        [CustomerEmailAddressChanged(command.customerID, command.emailAddress, command.confirmationHash)]
    }

    /** The name comparison tolerates an unset name, which counts as different. */
    function ChangeName(command: ChangeCustomerName): (r: seq<Event>)
      reads this
      ensures r == Decisions.ChangeName(name, command)
    {
      if Some(command.name) == name then
        []
      else
        [CustomerNameChanged(command.customerID, command.name)]
    }

    method ApplyAll(events: seq<Event>)
      requires Valid()
      modifies this
      ensures Valid() && applied == old(applied) + events
      ensures Snapshot() == FoldFrom(old(Snapshot()), events)
    {
      for i := 0 to |events|
        invariant Valid() && applied == old(applied) + events[..i]
      {
        Apply(events[i]);
        assert events[..i + 1] == events[..i] + [events[i]];
      }
      assert events[..|events|] == events;
      PrimitiveFoldAppend(old(applied), events);
    }

    method Apply(e: Event)
      requires Valid()
      modifies this
      ensures Valid() && applied == old(applied) + [e]
      ensures Snapshot() == Projection.Apply(old(Snapshot()), e)
    {
      match e {
        case CustomerRegistered(_, email, hash, n) =>
          emailAddress := Some(email);
          confirmationHash := Some(hash);
          name := Some(n);
        case CustomerEmailAddressConfirmed(_) =>
          isEmailAddressConfirmed := true;
        case CustomerEmailAddressChanged(_, email, hash) =>
          emailAddress := Some(email);
          confirmationHash := Some(hash);
          isEmailAddressConfirmed := false;
        case CustomerNameChanged(_, n) =>
          name := Some(n);
        case CustomerEmailAddressConfirmationFailed(_) =>
      }
      PrimitiveFoldSnoc(applied, e);
      applied := applied + [e];
    }
  }

  /** Confirming on a reconstituted aggregate decides on the folded history. */
  method ReconstituteThenConfirm(events: seq<Event>, command: ConfirmCustomerEmailAddress) returns (r: seq<Event>)
    requires Fold(events).confirmationHash.Some?
    ensures r == Decisions.ConfirmOn(Fold(events), command)
  {
    var customer := Customer2.Reconstitute(events);
    r := customer.ConfirmEmailAddress(command);
  }

  /**
   * The aggregate does not apply its own decisions; a caller that stores
   * them and reconstitutes from the history plus what a change yielded gets
   * an aggregate that yields nothing for the same change.
   */
  method ChangeEmailAddressAfterReplay(events: seq<Event>, command: ChangeCustomerEmailAddress)
    returns (first: seq<Event>, second: seq<Event>)
    ensures first == Decisions.ChangeEmailAddress(Fold(events).emailAddress, command)
    ensures second == []
  {
    var customer := Customer2.Reconstitute(events);
    first := customer.ChangeEmailAddress(command);
    var replayed := Customer2.Reconstitute(events + first);
    PrimitiveFoldAppend(events, first);
    Decisions.ChangeEmailAddressRepeated(Primitive(Fold(events)), command);
    second := replayed.ChangeEmailAddress(command);
  }

  /** The same for a name change. */
  method ChangeNameAfterReplay(events: seq<Event>, command: ChangeCustomerName)
    returns (first: seq<Event>, second: seq<Event>)
    ensures first == Decisions.ChangeName(Fold(events).name, command)
    ensures second == []
  {
    var customer := Customer2.Reconstitute(events);
    first := customer.ChangeName(command);
    var replayed := Customer2.Reconstitute(events + first);
    PrimitiveFoldAppend(events, first);
    Decisions.ChangeNameRepeated(Primitive(Fold(events)), command);
    second := replayed.ChangeName(command);
  }
}
