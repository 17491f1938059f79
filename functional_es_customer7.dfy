/**
 * src/domain/functional/es/customer/Customer7.java: static handlers, each
 * with its own loop that tracks only the fields it needs, and null guards
 * for a history without the event that would set them.
 */
module FunctionalEsCustomer7 {
  import opened Wrappers
  import opened Values
  import opened Events
  import opened Commands
  import opened Projection
  import Decisions
  import FunctionalEsCustomer6

  function Register(command: RegisterCustomer): (e: Event)
    ensures e == Decisions.Registered(command)
  {
    CustomerRegistered(command.customerID, command.emailAddress, command.confirmationHash, command.name)
  }

  /**
   * A history with no hash fails like a wrong hash; otherwise the usual
   * table, and the same answer as Customer6 wherever Customer6 has one.
   */
  method ConfirmEmailAddress(events: seq<Event>, command: ConfirmCustomerEmailAddress) returns (r: seq<Event>)
    ensures r == Decisions.Confirm(LastConfirmationHash(events), LastConfirmation(events) == Some(true), command)
    ensures Fold(events).confirmationHash.Some? ==> r == FunctionalEsCustomer6.ConfirmEmailAddress(events, command)
  {
    var isEmailAddressConfirmed := false;
    var confirmationHash: Option<Hash> := None;
    for i := 0 to |events|
      invariant confirmationHash == LastConfirmationHash(events[..i])
      invariant isEmailAddressConfirmed == (LastConfirmation(events[..i]) == Some(true))
    {
      assert events[..i + 1][..i] == events[..i];
      match events[i] {
        case CustomerRegistered(_, _, hash, _) =>
          confirmationHash := Some(hash);
        case CustomerEmailAddressConfirmed(_) =>
          isEmailAddressConfirmed := true;
        case CustomerEmailAddressChanged(_, _, hash) =>
          isEmailAddressConfirmed := false;
          confirmationHash := Some(hash);
        case _ =>
      }
    }
    assert events[..|events|] == events;
    FoldIsLastWrites(events);

    if confirmationHash.None? || confirmationHash.value != command.confirmationHash {
      return [CustomerEmailAddressConfirmationFailed(command.customerID)];
    }
    if isEmailAddressConfirmed {
      return [];
    }
    return [CustomerEmailAddressConfirmed(command.customerID)];
  }

  /** A history with no address yields nothing; otherwise the usual table, agreeing with Customer6. */
  method ChangeEmailAddress(events: seq<Event>, command: ChangeCustomerEmailAddress) returns (r: seq<Event>)
    ensures LastEmailAddress(events).None? ==> r == []
    ensures LastEmailAddress(events).Some? ==> r == Decisions.ChangeEmailAddress(LastEmailAddress(events), command)
    ensures Fold(events).emailAddress.Some? ==> r == FunctionalEsCustomer6.ChangeEmailAddress(events, command)
  {
    var emailAddress: Option<EmailAddress> := None;
    for i := 0 to |events|
      invariant emailAddress == LastEmailAddress(events[..i])
    {
      assert events[..i + 1][..i] == events[..i];
      match events[i] {
        case CustomerRegistered(_, email, _, _) =>
          emailAddress := Some(email);
        case CustomerEmailAddressChanged(_, email, _) =>
          emailAddress := Some(email);
        case _ =>
      }
    }
    assert events[..|events|] == events;
    FoldIsLastWrites(events);

    if emailAddress.None? || emailAddress.value == command.emailAddress {
      return [];
    }
    return [CustomerEmailAddressChanged(command.customerID, command.emailAddress, command.confirmationHash)];
  }

  /** A history with no name yields nothing; otherwise the usual table, agreeing with Customer6. */
  method ChangeName(events: seq<Event>, command: ChangeCustomerName) returns (r: seq<Event>)
    ensures LastName(events).None? ==> r == []
    ensures LastName(events).Some? ==> r == Decisions.ChangeName(LastName(events), command)
    ensures Fold(events).name.Some? ==> r == FunctionalEsCustomer6.ChangeName(events, command)
  {
    var name: Option<PersonName> := None;
    for i := 0 to |events|
      invariant name == LastName(events[..i])
    {
      assert events[..i + 1][..i] == events[..i];
      match events[i] {
        case CustomerRegistered(_, _, _, n) =>
          name := Some(n);
        case CustomerNameChanged(_, n) =>
          name := Some(n);
        case _ =>
      }
    }
    assert events[..|events|] == events;
    FoldIsLastWrites(events);

    if name.None? || name.value == command.name {
      return [];
    }
    return [CustomerNameChanged(command.customerID, command.name)];
  }

  /** An empty history: confirming fails, changing address or name yields nothing. */
  method WithoutHistory(confirm: ConfirmCustomerEmailAddress, changeEmail: ChangeCustomerEmailAddress,
                        changeName: ChangeCustomerName)
    returns (confirmed: seq<Event>, emailChanged: seq<Event>, nameChanged: seq<Event>)
    ensures confirmed == [CustomerEmailAddressConfirmationFailed(confirm.customerID)]
    ensures emailChanged == [] && nameChanged == []
  {
    confirmed := ConfirmEmailAddress([], confirm);
    emailChanged := ChangeEmailAddress([], changeEmail);
    nameChanged := ChangeName([], changeName);
  }
}
