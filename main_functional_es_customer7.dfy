/**
 * src/main/java/domain/functional/es/customer/Customer7.java: the same
 * inline loops as the other Customer7, but a history without the field a
 * handler needs is ruled out by an `assert` rather than handled.
 */
module MainFunctionalEsCustomer7 {
  import opened Wrappers
  import opened Values
  import opened Events
  import opened Commands
  import opened Projection
  import Decisions
  import FunctionalEsCustomer6

  function Register(command: RegisterCustomer): (e: Event)
    ensures e == Decisions.Registered(command)
  {
    CustomerRegistered(command.customerID, command.emailAddress, command.confirmationHash, command.name)
  }

  method ConfirmEmailAddress(eventStream: seq<Event>, command: ConfirmCustomerEmailAddress) returns (r: seq<Event>)
    requires Fold(eventStream).confirmationHash.Some?
    ensures r == Decisions.Confirm(LastConfirmationHash(eventStream), LastConfirmation(eventStream) == Some(true), command)
    ensures r == FunctionalEsCustomer6.ConfirmEmailAddress(eventStream, command)
  {
    FoldIsLastWrites(eventStream);
    var isEmailAddressConfirmed := false;
    var confirmationHash: Option<Hash> := None;
    for i := 0 to |eventStream|
      invariant confirmationHash == LastConfirmationHash(eventStream[..i])
      invariant isEmailAddressConfirmed == (LastConfirmation(eventStream[..i]) == Some(true))
    {
      assert eventStream[..i + 1][..i] == eventStream[..i];
      match eventStream[i] {
        case CustomerRegistered(_, _, hash, _) =>
          confirmationHash := Some(hash);
        case CustomerEmailAddressConfirmed(_) =>
          isEmailAddressConfirmed := true;
        case CustomerEmailAddressChanged(_, _, hash) =>
          isEmailAddressConfirmed := false;
          confirmationHash := Some(hash);
        case _ =>
      }
    }
    assert eventStream[..|eventStream|] == eventStream;

    if confirmationHash.value != command.confirmationHash {
      return [CustomerEmailAddressConfirmationFailed(command.customerID)];
    }
    if isEmailAddressConfirmed {
      return [];
    }
    return [CustomerEmailAddressConfirmed(command.customerID)];
  }

  method ChangeEmailAddress(eventStream: seq<Event>, command: ChangeCustomerEmailAddress) returns (r: seq<Event>)
    requires Fold(eventStream).emailAddress.Some?
    ensures r == Decisions.ChangeEmailAddress(LastEmailAddress(eventStream), command)
    ensures r == FunctionalEsCustomer6.ChangeEmailAddress(eventStream, command)
  {
    FoldIsLastWrites(eventStream);
    var emailAddress: Option<EmailAddress> := None;
    for i := 0 to |eventStream|
      invariant emailAddress == LastEmailAddress(eventStream[..i])
    {
      assert eventStream[..i + 1][..i] == eventStream[..i];
      match eventStream[i] {
        case CustomerRegistered(_, email, _, _) =>
          emailAddress := Some(email);
        case CustomerEmailAddressChanged(_, email, _) =>
          emailAddress := Some(email);
        case _ =>
      }
    }
    assert eventStream[..|eventStream|] == eventStream;

    if emailAddress.value == command.emailAddress {
      return [];
    }
    return [CustomerEmailAddressChanged(command.customerID, command.emailAddress, command.confirmationHash)];
  }

  method ChangeName(eventStream: seq<Event>, command: ChangeCustomerName) returns (r: seq<Event>)
    requires Fold(eventStream).name.Some?
    ensures r == Decisions.ChangeName(LastName(eventStream), command)
    ensures r == FunctionalEsCustomer6.ChangeName(eventStream, command)
  {
    FoldIsLastWrites(eventStream);
    var name: Option<PersonName> := None;
    for i := 0 to |eventStream|
      invariant name == LastName(eventStream[..i])
    {
      assert eventStream[..i + 1][..i] == eventStream[..i];
      match eventStream[i] {
        case CustomerRegistered(_, _, _, n) =>
          name := Some(n);
        case CustomerNameChanged(_, n) =>
          name := Some(n);
        case _ =>
      }
    }
    assert eventStream[..|eventStream|] == eventStream;

    if name.value == command.name {
      return [];
    }
    return [CustomerNameChanged(command.customerID, command.name)];
  }
}
