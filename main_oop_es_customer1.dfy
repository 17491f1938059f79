/**
 * src/main/java/domain/oop/es/customer/Customer1.java: the same API as the
 * other OOP Customer1, but recording an event only appends it to the buffer
 * (the fields stay as reconstituted) and the buffer is handed out without
 * being emptied.
 */
module MainOopEsCustomer1 {
  import opened Wrappers
  import opened Values
  import opened Events
  import opened Commands
  import opened Projection
  import Decisions

  class Customer1 {
    var emailAddress: Option<EmailAddress>
    var confirmationHash: Option<Hash>
    var isEmailAddressConfirmed: bool
    var name: Option<PersonName>
    var recordedEvents: seq<Event>

    /** Every event applied to this object so far, in order (recorded events are not among them). */
    ghost var applied: seq<Event>

    /** The fields as a projected state (the class has no id field). */
    function Snapshot(): State
      reads this
    {
      State(None, emailAddress, confirmationHash, name, Some(isEmailAddressConfirmed))
    }

    /** The fields are the projection of everything applied. */
    ghost predicate Valid()
      reads this
    {
      Snapshot() == Primitive(Fold(applied))
    }

    constructor ()
      ensures Valid() && Snapshot() == Fresh
      ensures applied == [] && recordedEvents == []
    {
      emailAddress, confirmationHash, isEmailAddressConfirmed, name := None, None, false, None;
      recordedEvents := [];
      applied := [];
    }

    /** A new aggregate with the registration pending; its fields stay unset. */
    static method Register(command: RegisterCustomer) returns (customer: Customer1)
      ensures fresh(customer) && customer.Valid()
      ensures customer.recordedEvents == [Decisions.Registered(command)]
      ensures customer.applied == [] && customer.Snapshot() == Fresh
    {
      customer := new Customer1();
      customer.RecordThat(CustomerRegistered(command.customerID, command.emailAddress, command.confirmationHash, command.name));
    }

    /** A new aggregate with the history applied and nothing pending. */
    static method Reconstitute(events: seq<Event>) returns (customer: Customer1)
      ensures fresh(customer) && customer.Valid()
      ensures customer.applied == events && customer.recordedEvents == []
      ensures customer.Snapshot() == Primitive(Fold(events))
    {
      customer := new Customer1();
      customer.ApplyAll(events);
    }

    method ConfirmEmailAddress(command: ConfirmCustomerEmailAddress)
      requires Valid() && confirmationHash.Some?
      modifies this
      ensures Valid() && applied == old(applied) && Snapshot() == old(Snapshot())
      ensures recordedEvents
           == old(recordedEvents) + Decisions.Confirm(confirmationHash, isEmailAddressConfirmed, command)
    {
      if confirmationHash.value != command.confirmationHash {
        RecordThat(CustomerEmailAddressConfirmationFailed(command.customerID));
        return;
      }
      if !isEmailAddressConfirmed {
        RecordThat(CustomerEmailAddressConfirmed(command.customerID));
      }
    }

    /** The address comparison tolerates an unset address, which counts as different. */
    method ChangeEmailAddress(command: ChangeCustomerEmailAddress)
      requires Valid()
      modifies this
      ensures Valid() && applied == old(applied) && Snapshot() == old(Snapshot())
      ensures recordedEvents == old(recordedEvents) + Decisions.ChangeEmailAddress(emailAddress, command)
    {
      if Some(command.emailAddress) != emailAddress {
        RecordThat(CustomerEmailAddressChanged(command.customerID, command.emailAddress, command.confirmationHash));
      }
    }

    /** The name comparison tolerates an unset name, which counts as different. */
    method ChangeName(command: ChangeCustomerName)
      requires Valid()
      modifies this
      ensures Valid() && applied == old(applied) && Snapshot() == old(Snapshot())
      ensures recordedEvents == old(recordedEvents) + Decisions.ChangeName(name, command)
    {
      if Some(command.name) != name {
        RecordThat(CustomerNameChanged(command.customerID, command.name));
      }
    }

    /** The buffer itself, left as it is. */
    method GetRecordedEvents() returns (current: seq<Event>)
      ensures current == recordedEvents
    {
      current := recordedEvents;
    }

    /** Appends the event to the buffer and nothing more. */
    method RecordThat(e: Event)
      modifies this
      ensures recordedEvents == old(recordedEvents) + [e]
      ensures applied == old(applied) && Snapshot() == old(Snapshot())
    {
      recordedEvents := recordedEvents + [e];
    }

    method ApplyAll(events: seq<Event>)
      requires Valid()
      modifies this
      ensures Valid() && applied == old(applied) + events && recordedEvents == old(recordedEvents)
      ensures Snapshot() == FoldFrom(old(Snapshot()), events)
    {
      for i := 0 to |events|
        invariant Valid()
        invariant applied == old(applied) + events[..i] && recordedEvents == old(recordedEvents)
      {
        Apply(events[i]);
        assert events[..i + 1] == events[..i] + [events[i]];
      }
      assert events[..|events|] == events;
      PrimitiveFoldAppend(old(applied), events);
    }

    method Apply(e: Event)
      requires Valid()
      modifies this
      ensures Valid() && applied == old(applied) + [e] && recordedEvents == old(recordedEvents)
      ensures Snapshot() == Projection.Apply(old(Snapshot()), e)
    {
      match e {
        case CustomerRegistered(_, email, hash, n) =>
          emailAddress := Some(email);
          confirmationHash := Some(hash);
          name := Some(n);
        case CustomerEmailAddressConfirmed(_) =>
          isEmailAddressConfirmed := true;
        case CustomerEmailAddressChanged(_, email, hash) =>
          emailAddress := Some(email);
          confirmationHash := Some(hash);
          isEmailAddressConfirmed := false;
        case CustomerNameChanged(_, n) =>
          name := Some(n);
        case CustomerEmailAddressConfirmationFailed(_) =>
      }
      PrimitiveFoldSnoc(applied, e);
      applied := applied + [e];
    }
  }

  /** Registering records exactly the registration, and asking twice hands out the same buffer. */
  method RegisterThenGetTwice(command: RegisterCustomer) returns (first: seq<Event>, second: seq<Event>)
    ensures first == [CustomerRegistered(command.customerID, command.emailAddress, command.confirmationHash, command.name)]
    ensures second == first
  {
    var customer := Customer1.Register(command);
    first := customer.GetRecordedEvents();
    second := customer.GetRecordedEvents();
  }

  /**
   * The same confirmation twice: the fields are never updated, so the second
   * decides exactly as the first and the buffer holds both outcomes.
   */
  method ConfirmTwice(events: seq<Event>, command: ConfirmCustomerEmailAddress) returns (recorded: seq<Event>)
    requires Fold(events).confirmationHash.Some?
    ensures var once := Decisions.ConfirmOn(Fold(events), command); recorded == once + once
  {
    var customer := Customer1.Reconstitute(events);
    customer.ConfirmEmailAddress(command);
    customer.ConfirmEmailAddress(command);
    recorded := customer.GetRecordedEvents();
  }

  /** The same address change twice on a stale aggregate records the change twice. */
  method ChangeEmailAddressTwice(events: seq<Event>, command: ChangeCustomerEmailAddress) returns (recorded: seq<Event>)
    ensures var once := Decisions.ChangeEmailAddress(Fold(events).emailAddress, command); recorded == once + once
  {
    var customer := Customer1.Reconstitute(events);
    customer.ChangeEmailAddress(command);
    customer.ChangeEmailAddress(command);
    recorded := customer.GetRecordedEvents();
  }

  /** The same name change twice on a stale aggregate records the change twice. */
  method ChangeNameTwice(events: seq<Event>, command: ChangeCustomerName) returns (recorded: seq<Event>)
    ensures var once := Decisions.ChangeName(Fold(events).name, command); recorded == once + once
  {
    var customer := Customer1.Reconstitute(events);
    customer.ChangeName(command);
    customer.ChangeName(command);
    recorded := customer.GetRecordedEvents();
  }
}
