/**
 * src/domain/oop/es/customer/Customer1.java: an aggregate that records the
 * events its commands yield in an internal buffer, applies each one to its
 * own fields at once, and hands the buffer out (emptying it) on request.
 */
module OopEsCustomer1 {
  import opened Wrappers
  import opened Values
  import opened Events
  import opened Commands
  import opened Projection
  import Decisions

  class Customer1 {
    var emailAddress: Option<EmailAddress>
    var confirmationHash: Option<Hash>
    var isEmailAddressConfirmed: bool
    var name: Option<PersonName>
    var recordedEvents: seq<Event>

    /** Every event applied to this object so far, in order. */
    ghost var applied: seq<Event>

    /** The fields as a projected state (the class has no id field). */
    function Snapshot(): State
      reads this
    {
      State(None, emailAddress, confirmationHash, name, Some(isEmailAddressConfirmed))
    }

    /** The fields are the projection of everything applied. */
    ghost predicate Projected()
      reads this
    {
      Snapshot() == Primitive(Fold(applied))
    }

    /** Besides, the pending events are the most recently applied ones. */
    ghost predicate Valid()
      reads this
    {
      && Projected()
      && |recordedEvents| <= |applied|
      && applied[|applied| - |recordedEvents|..] == recordedEvents
    }

    constructor ()
      ensures Valid() && Snapshot() == Fresh
      ensures applied == [] && recordedEvents == []
    {
      emailAddress, confirmationHash, isEmailAddressConfirmed, name := None, None, false, None;
      recordedEvents := [];
      applied := [];
    }

    /** A new aggregate with its registration pending and applied. */
    static method Register(command: RegisterCustomer) returns (customer: Customer1)
      ensures fresh(customer) && customer.Valid()
      ensures customer.recordedEvents == [Decisions.Registered(command)]
      ensures customer.applied == customer.recordedEvents
    {
      customer := new Customer1();
      customer.RecordThat(CustomerRegistered(command.customerID, command.emailAddress, command.confirmationHash, command.name));
    }

    /** A new aggregate with the history applied and nothing pending. */
    static method Reconstitute(events: seq<Event>) returns (customer: Customer1)
      ensures fresh(customer) && customer.Valid()
      ensures customer.applied == events && customer.recordedEvents == []
    {
      customer := new Customer1();
      customer.ApplyAll(events);
    }

    method ConfirmEmailAddress(command: ConfirmCustomerEmailAddress)
      requires Valid() && confirmationHash.Some?
      modifies this
      ensures Valid()
      ensures var emitted := Decisions.Confirm(old(confirmationHash), old(isEmailAddressConfirmed), command);
        && recordedEvents == old(recordedEvents) + emitted
        && applied == old(applied) + emitted
        && Snapshot() == FoldFrom(old(Snapshot()), emitted)
    {
      if confirmationHash.value != command.confirmationHash {
        RecordThat(CustomerEmailAddressConfirmationFailed(command.customerID));
        return;
      }
      if !isEmailAddressConfirmed {
        RecordThat(CustomerEmailAddressConfirmed(command.customerID));
      }
    }

    method ChangeEmailAddress(command: ChangeCustomerEmailAddress)
      requires Valid() && emailAddress.Some?
      modifies this
      ensures Valid()
      ensures var emitted := Decisions.ChangeEmailAddress(old(emailAddress), command);
        && recordedEvents == old(recordedEvents) + emitted
        && applied == old(applied) + emitted
        && Snapshot() == FoldFrom(old(Snapshot()), emitted)
    {
      if command.emailAddress != emailAddress.value {
        RecordThat(CustomerEmailAddressChanged(command.customerID, command.emailAddress, command.confirmationHash));
      }
    }

    method ChangeName(command: ChangeCustomerName)
      requires Valid() && name.Some?
      modifies this
      ensures Valid()
      ensures var emitted := Decisions.ChangeName(old(name), command);
        && recordedEvents == old(recordedEvents) + emitted
        && applied == old(applied) + emitted
        && Snapshot() == FoldFrom(old(Snapshot()), emitted)
    {
      if command.name != name.value {
        RecordThat(CustomerNameChanged(command.customerID, command.name));
      }
    }

    /** Hands out the pending events in recording order and empties the buffer. */
    method GetRecordedEvents() returns (current: seq<Event>)
      requires Valid()
      modifies this
      ensures Valid()
      ensures current == old(recordedEvents) && recordedEvents == []
      ensures applied == old(applied) && Snapshot() == old(Snapshot())
    {
      current := recordedEvents;
      recordedEvents := [];
    }

    /** Appends the event to the buffer and applies it. */
    method RecordThat(e: Event)
      requires Valid()
      modifies this
      ensures Valid()
      ensures recordedEvents == old(recordedEvents) + [e] && applied == old(applied) + [e]
      ensures Snapshot() == Projection.Apply(old(Snapshot()), e)
    {
      ghost var before := applied;
      recordedEvents := recordedEvents + [e];
      Apply(e);
      assert applied[|applied| - |recordedEvents|..] == before[|before| - |old(recordedEvents)|..] + [e];
    }

    method ApplyAll(events: seq<Event>)
      requires Projected()
      modifies this
      ensures Projected()
      ensures applied == old(applied) + events && recordedEvents == old(recordedEvents)
      ensures Snapshot() == FoldFrom(old(Snapshot()), events)
    {
      for i := 0 to |events|
        invariant Projected()
        invariant applied == old(applied) + events[..i] && recordedEvents == old(recordedEvents)
      {
        Apply(events[i]);
        assert events[..i + 1] == events[..i] + [events[i]];
      }
      assert events[..|events|] == events;
      PrimitiveFoldAppend(old(applied), events);
    }

    method Apply(e: Event)
      requires Projected()
      modifies this
      ensures Projected()
      ensures applied == old(applied) + [e] && recordedEvents == old(recordedEvents)
      ensures Snapshot() == Projection.Apply(old(Snapshot()), e)
    {
      match e {
        case CustomerRegistered(_, email, hash, n) =>
          emailAddress := Some(email);
          confirmationHash := Some(hash);
          name := Some(n);
        case CustomerEmailAddressConfirmed(_) =>
          isEmailAddressConfirmed := true;
        case CustomerEmailAddressChanged(_, email, hash) =>
          emailAddress := Some(email);
          confirmationHash := Some(hash);
          isEmailAddressConfirmed := false;
        case CustomerNameChanged(_, n) =>
          name := Some(n);
        case CustomerEmailAddressConfirmationFailed(_) =>
      }
      PrimitiveFoldSnoc(applied, e);
      applied := applied + [e];
    }
  }

  /** Registering leaves exactly the registration pending; a second request gets nothing. */
  method RegisterThenDrainTwice(command: RegisterCustomer) returns (first: seq<Event>, second: seq<Event>)
    ensures first == [CustomerRegistered(command.customerID, command.emailAddress, command.confirmationHash, command.name)]
    ensures second == []
  {
    var customer := Customer1.Register(command);
    first := customer.GetRecordedEvents();
    second := customer.GetRecordedEvents();
  }

  /** The same confirmation twice on a reconstituted customer: the second records nothing unless the hash is wrong. */
  method ConfirmTwice(events: seq<Event>, command: ConfirmCustomerEmailAddress) returns (first: seq<Event>, second: seq<Event>)
    requires Fold(events).confirmationHash.Some?
    ensures first == Decisions.ConfirmOn(Fold(events), command)
    ensures second == if first == [CustomerEmailAddressConfirmationFailed(command.customerID)] then first else []
  {
    var customer := Customer1.Reconstitute(events);
    customer.ConfirmEmailAddress(command);
    first := customer.GetRecordedEvents();
    Decisions.ConfirmRepeated(Primitive(Fold(events)), command);
    customer.ConfirmEmailAddress(command);
    second := customer.GetRecordedEvents();
  }

  /** The same address change twice: the second records nothing. */
  method ChangeEmailAddressTwice(events: seq<Event>, command: ChangeCustomerEmailAddress)
    returns (first: seq<Event>, second: seq<Event>)
    requires Fold(events).emailAddress.Some?
    ensures first == Decisions.ChangeEmailAddress(Fold(events).emailAddress, command)
    ensures second == []
  {
    var customer := Customer1.Reconstitute(events);
    customer.ChangeEmailAddress(command);
    first := customer.GetRecordedEvents();
    Decisions.ChangeEmailAddressRepeated(Primitive(Fold(events)), command);
    FoldFromKeepsSet(Primitive(Fold(events)), first);
    customer.ChangeEmailAddress(command);
    second := customer.GetRecordedEvents();
  }

  /** The same name change twice: the second records nothing. */
  method ChangeNameTwice(events: seq<Event>, command: ChangeCustomerName) returns (first: seq<Event>, second: seq<Event>)
    requires Fold(events).name.Some?
    ensures first == Decisions.ChangeName(Fold(events).name, command)
    ensures second == []
  {
    var customer := Customer1.Reconstitute(events);
    customer.ChangeName(command);
    first := customer.GetRecordedEvents();
    Decisions.ChangeNameRepeated(Primitive(Fold(events)), command);
    FoldFromKeepsSet(Primitive(Fold(events)), first);
    customer.ChangeName(command);
    second := customer.GetRecordedEvents();
  }
}
