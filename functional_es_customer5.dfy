/**
 * src/domain/functional/es/customer/Customer5.java: static handlers that
 * decide on an already folded CustomerState.
 */
module FunctionalEsCustomer5 {
  import opened Wrappers
  import opened Events
  import opened Commands
  import opened Failures
  import opened Projection
  import Decisions

  function Register(command: RegisterCustomer): (e: Event)
    ensures e == Decisions.Registered(command)
  {
    CustomerRegistered(command.customerID, command.emailAddress, command.confirmationHash, command.name)
  }

  /**
   * confirmEmailAddress as written: the flag is a boxed `Boolean`, and a
   * state folded from a history with no confirmation or address change
   * still holds null there, so reaching the flag test throws.
   */
  function ConfirmEmailAddressAsWritten(current: State, command: ConfirmCustomerEmailAddress): (r: Result<seq<Event>, Exception>)
    requires current.confirmationHash.Some?
    ensures r.Failure? <==> current.confirmationHash == Some(command.confirmationHash) && current.isConfirmed == None
    ensures r.Failure? ==> r.error == NullUnboxing
    ensures r.Success? ==> r.value == Decisions.ConfirmOn(current, command)
  {
    if current.confirmationHash.value != command.confirmationHash then
      Success([CustomerEmailAddressConfirmationFailed(command.customerID)])
    else match current.isConfirmed
      case None => Failure(NullUnboxing)
      case Some(true) => Success([])
      case Some(false) => Success([CustomerEmailAddressConfirmed(command.customerID)])
  }

  /** The right hash on a customer who has only registered throws instead of confirming. */
  lemma RegisteredOnlyConfirmThrows(registration: RegisterCustomer, command: ConfirmCustomerEmailAddress)
    requires command.confirmationHash == registration.confirmationHash
    ensures ConfirmEmailAddressAsWritten(Fold([Decisions.Registered(registration)]), command) == Failure(NullUnboxing)
  {
  }

  /** confirmEmailAddress with the flag read as unset-means-false, which the rest of the model uses. */
  function ConfirmEmailAddress(current: State, command: ConfirmCustomerEmailAddress): (r: seq<Event>)
    requires current.confirmationHash.Some?
    ensures r == Decisions.Confirm(current.confirmationHash, Confirmed(current), command)
    ensures ConfirmEmailAddressAsWritten(current, command).Success? ==> r == ConfirmEmailAddressAsWritten(current, command).value
  {
    if current.confirmationHash.value != command.confirmationHash then
      [CustomerEmailAddressConfirmationFailed(command.customerID)]
    else if Confirmed(current) then
      []
    else
      [CustomerEmailAddressConfirmed(command.customerID)]
  }

  /** With the correction, the right hash on a customer who has only registered confirms. */
  lemma RegisteredOnlyConfirms(registration: RegisterCustomer, command: ConfirmCustomerEmailAddress)
    requires command.confirmationHash == registration.confirmationHash
    ensures ConfirmEmailAddress(Fold([Decisions.Registered(registration)]), command)
         == [CustomerEmailAddressConfirmed(command.customerID)]
  {
  }

  function ChangeEmailAddress(current: State, command: ChangeCustomerEmailAddress): (r: seq<Event>)
    requires current.emailAddress.Some?
    ensures r == Decisions.ChangeEmailAddress(current.emailAddress, command)
  {
    if current.emailAddress.value == command.emailAddress then
      []
    else
      [CustomerEmailAddressChanged(command.customerID, command.emailAddress, command.confirmationHash)]
  }

  function ChangeName(current: State, command: ChangeCustomerName): (r: seq<Event>)
    requires current.name.Some?
    ensures r == Decisions.ChangeName(current.name, command)
  {
    if current.name.value == command.name then
      []
    else
      [CustomerNameChanged(command.customerID, command.name)]
  }
}
