/**
 * src/main/java/domain/functional/es/customer/Customer6.java: register,
 * confirm and change-address handlers over a reconstituted history. Its
 * state class keeps the flag as a primitive `boolean`, so an unset flag
 * reads false.
 */
module MainFunctionalEsCustomer6 {
  import opened Wrappers
  import opened Events
  import opened Commands
  import opened Projection
  import Decisions
  import FunctionalEsCustomer6

  function Register(command: RegisterCustomer): (e: Event)
    ensures e == Decisions.Registered(command)
  {
    CustomerRegistered(command.customerID, command.emailAddress, command.confirmationHash, command.name)
  }

  function ConfirmEmailAddress(eventStream: seq<Event>, command: ConfirmCustomerEmailAddress): (r: seq<Event>)
    requires Fold(eventStream).confirmationHash.Some?
    ensures r == Decisions.Confirm(Fold(eventStream).confirmationHash, Primitive(Fold(eventStream)).isConfirmed.value, command)
  {
    var current := Primitive(Fold(eventStream));
    if current.confirmationHash.value != command.confirmationHash then
      [CustomerEmailAddressConfirmationFailed(command.customerID)]
    else if current.isConfirmed.value then
      []
    else
      [CustomerEmailAddressConfirmed(command.customerID)]
  }

  function ChangeEmailAddress(eventStream: seq<Event>, command: ChangeCustomerEmailAddress): (r: seq<Event>)
    requires Fold(eventStream).emailAddress.Some?
    ensures r == Decisions.ChangeEmailAddress(Fold(eventStream).emailAddress, command)
  {
    var current := Fold(eventStream);
    if current.emailAddress.value == command.emailAddress then
      []
    else
      [CustomerEmailAddressChanged(command.customerID, command.emailAddress, command.confirmationHash)]
  }

  /**
   * On every history both trees' Customer6 decide alike. This tree's
   * primitive flag holds a value on every history, true exactly when the
   * last flag-writing event was a confirmation, which is also what the other
   * tree's boxed flag reads as.
   */
  lemma AgreesWithDomainCustomer6(eventStream: seq<Event>, confirm: ConfirmCustomerEmailAddress,
                                  change: ChangeCustomerEmailAddress)
    requires Fold(eventStream).confirmationHash.Some? && Fold(eventStream).emailAddress.Some?
    ensures Primitive(Fold(eventStream)).isConfirmed.Some?
    ensures Primitive(Fold(eventStream)).isConfirmed.value <==> LastConfirmation(eventStream) == Some(true)
    ensures Primitive(Fold(eventStream)).isConfirmed.value == Confirmed(Fold(eventStream))
    ensures ConfirmEmailAddress(eventStream, confirm) == FunctionalEsCustomer6.ConfirmEmailAddress(eventStream, confirm)
    ensures ChangeEmailAddress(eventStream, change) == FunctionalEsCustomer6.ChangeEmailAddress(eventStream, change)
  {
    FoldIsLastWrites(eventStream);
  }
}
