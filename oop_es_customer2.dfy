/**
 * src/domain/oop/es/customer/Customer2.java: an aggregate whose handlers
 * return the events they decide on, each one applied to the aggregate's own
 * fields on the way out, so the object stays current between commands.
 */
module OopEsCustomer2 {
  import opened Wrappers
  import opened Values
  import opened Events
  import opened Commands
  import opened Projection
  import Decisions

  class Customer2 {
    var emailAddress: Option<EmailAddress>
    var confirmationHash: Option<Hash>
    var isEmailAddressConfirmed: bool
    var name: Option<PersonName>

    /** Every event applied to this object so far, in order. */
    ghost var applied: seq<Event>

    /** The fields as a projected state (the class has no id field). */
    function Snapshot(): State
      reads this
    {
      State(None, emailAddress, confirmationHash, name, Some(isEmailAddressConfirmed))
    }

    /** The fields are the projection of everything applied. */
    ghost predicate Valid()
      reads this
    {
      Snapshot() == Primitive(Fold(applied))
    }

    constructor ()
      ensures Valid() && Snapshot() == Fresh && applied == []
    {
      emailAddress, confirmationHash, isEmailAddressConfirmed, name := None, None, false, None;
      applied := [];
    }

    /** The registration event, built from the command alone. */
    static function Register(command: RegisterCustomer): (e: Event)
      ensures e == Decisions.Registered(command)
    {
      CustomerRegistered(command.customerID, command.emailAddress, command.confirmationHash, command.name)
    }

    /** A new aggregate with the history applied. */
    static method Reconstitute(events: seq<Event>) returns (customer: Customer2)
      ensures fresh(customer) && customer.Valid() && customer.applied == events
      ensures customer.Snapshot() == Primitive(Fold(events))
    {
      customer := new Customer2();
      customer.ApplyAll(events);
    }

    method ConfirmEmailAddress(command: ConfirmCustomerEmailAddress) returns (r: seq<Event>)
      requires Valid() && confirmationHash.Some?
      modifies this
      ensures Valid()
      ensures r == Decisions.Confirm(old(confirmationHash), old(isEmailAddressConfirmed), command)
      ensures applied == old(applied) + r && Snapshot() == FoldFrom(old(Snapshot()), r)
    {
      if confirmationHash.value != command.confirmationHash {
        var e := Apply(CustomerEmailAddressConfirmationFailed(command.customerID));
        return [e];
      }
      if isEmailAddressConfirmed {
        return [];
      }
      var e := Apply(CustomerEmailAddressConfirmed(command.customerID));
      return [e];
    }

    method ChangeEmailAddress(command: ChangeCustomerEmailAddress) returns (r: seq<Event>)
      requires Valid() && emailAddress.Some?
      modifies this
      ensures Valid()
      ensures r == Decisions.ChangeEmailAddress(old(emailAddress), command)
      ensures applied == old(applied) + r && Snapshot() == FoldFrom(old(Snapshot()), r)
    {
      if command.emailAddress == emailAddress.value {
        return [];
      }
      var e := Apply(CustomerEmailAddressChanged(command.customerID, command.emailAddress, command.confirmationHash));
      return [e];
    }

    method ChangeName(command: ChangeCustomerName) returns (r: seq<Event>)
      requires Valid() && name.Some?
      modifies this
      ensures Valid()
      ensures r == Decisions.ChangeName(old(name), command)
      ensures applied == old(applied) + r && Snapshot() == FoldFrom(old(Snapshot()), r)
    {
      if command.name == name.value {
        return [];
      }
      var e := Apply(CustomerNameChanged(command.customerID, command.name));
      return [e];
    }

    method ApplyAll(events: seq<Event>)
      requires Valid()
      modifies this
      ensures Valid() && applied == old(applied) + events
      ensures Snapshot() == FoldFrom(old(Snapshot()), events)
    {
      for i := 0 to |events|
        invariant Valid() && applied == old(applied) + events[..i]
      {
        var _ := Apply(events[i]);
        assert events[..i + 1] == events[..i] + [events[i]];
      }
      assert events[..|events|] == events;
      PrimitiveFoldAppend(old(applied), events);
    }

    /** Applies the event to the fields and hands it back unchanged. */
    method Apply(e: Event) returns (r: Event)
      requires Valid()
      modifies this
      ensures Valid() && applied == old(applied) + [e]
      ensures Snapshot() == Projection.Apply(old(Snapshot()), e)
      ensures r == e
    {
      match e {
        case CustomerRegistered(_, email, hash, n) =>
          emailAddress := Some(email);
          confirmationHash := Some(hash);
          name := Some(n);
        case CustomerEmailAddressConfirmed(_) =>
          isEmailAddressConfirmed := true;
        case CustomerEmailAddressChanged(_, email, hash) =>
          emailAddress := Some(email);
          confirmationHash := Some(hash);
          isEmailAddressConfirmed := false;
        case CustomerNameChanged(_, n) =>
          name := Some(n);
        case CustomerEmailAddressConfirmationFailed(_) =>
      }
      PrimitiveFoldSnoc(applied, e);
      applied := applied + [e];
      r := e;
    }
  }

  /** The same confirmation twice: the second yields nothing unless the hash is wrong, when it fails again. */
  method ConfirmTwice(events: seq<Event>, command: ConfirmCustomerEmailAddress) returns (first: seq<Event>, second: seq<Event>)
    requires Fold(events).confirmationHash.Some?
    ensures first == Decisions.ConfirmOn(Fold(events), command)
    ensures second == if first == [CustomerEmailAddressConfirmationFailed(command.customerID)] then first else []
  {
    var customer := Customer2.Reconstitute(events);
    first := customer.ConfirmEmailAddress(command);
    Decisions.ConfirmRepeated(Primitive(Fold(events)), command);
    second := customer.ConfirmEmailAddress(command);
  }

  /** The same address change twice: the second yields nothing. */
  method ChangeEmailAddressTwice(events: seq<Event>, command: ChangeCustomerEmailAddress)
    returns (first: seq<Event>, second: seq<Event>)
    requires Fold(events).emailAddress.Some?
    ensures first == Decisions.ChangeEmailAddress(Fold(events).emailAddress, command)
    ensures second == []
  {
    var customer := Customer2.Reconstitute(events);
    first := customer.ChangeEmailAddress(command);
    Decisions.ChangeEmailAddressRepeated(Primitive(Fold(events)), command);
    FoldFromKeepsSet(Primitive(Fold(events)), first);
    second := customer.ChangeEmailAddress(command);
  }

  /** The same name change twice: the second yields nothing. */
  method ChangeNameTwice(events: seq<Event>, command: ChangeCustomerName) returns (first: seq<Event>, second: seq<Event>)
    requires Fold(events).name.Some?
    ensures first == Decisions.ChangeName(Fold(events).name, command)
    ensures second == []
  {
    var customer := Customer2.Reconstitute(events);
    first := customer.ChangeName(command);
    Decisions.ChangeNameRepeated(Primitive(Fold(events)), command);
    FoldFromKeepsSet(Primitive(Fold(events)), first);
    second := customer.ChangeName(command);
  }

  /** Registered, confirmed, then changed: the flag is down again and only the new hash confirms. */
  method ConfirmAfterChange(id: ID, email: EmailAddress, hash: Hash, name: PersonName,
                            newEmail: EmailAddress, newHash: Hash, command: ConfirmCustomerEmailAddress)
    returns (r: seq<Event>)
    ensures r == if command.confirmationHash == newHash
                 then [CustomerEmailAddressConfirmed(command.customerID)]
                 else [CustomerEmailAddressConfirmationFailed(command.customerID)]
  {
    var customer := Customer2.Reconstitute([CustomerRegistered(id, email, hash, name), CustomerEmailAddressConfirmed(id),
                                            CustomerEmailAddressChanged(id, newEmail, newHash)]);
    FoldRegisteredConfirmedChanged(id, email, hash, name, newEmail, newHash);
    r := customer.ConfirmEmailAddress(command);
  }
}
