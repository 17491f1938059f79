/**
 * src/main/java/domain/functional/traditional/customer/Customer2.java:
 * static functions from the current state to a new one. Confirming checks
 * only the hash and throws WrongConfirmationHashException on a mismatch.
 */
module MainFunctionalTraditionalCustomer2 {
  import opened Wrappers
  import opened Values
  import opened Events
  import opened Commands
  import opened Failures
  import opened TraditionalState
  import Projection
  import Decisions

  function Register(command: RegisterCustomer): (s: CustomerState)
    ensures s.id == command.customerID
    ensures Agrees(s, Projection.Fold([Decisions.Registered(command)]))
  {
    Unconfirmed(command.customerID, command.emailAddress, command.confirmationHash, command.name)
  }

  /** Throws on any wrong hash, whatever the flag; a right one raises the flag. */
  function ConfirmEmailAddress(current: CustomerState, command: ConfirmCustomerEmailAddress): (r: Result<CustomerState, Exception>)
    ensures r.Failure? <==> command.confirmationHash != current.confirmationHash
    ensures r.Failure? ==> r.error == WrongConfirmationHash
    ensures r.Success? ==> r.value == current.(isConfirmed := true)
  {
    if command.confirmationHash != current.confirmationHash then
      Failure(WrongConfirmationHash)
    else
      Success(CustomerState(current.id, current.emailAddress, current.confirmationHash, current.name, true))
  }

  /** Takes the new address and hash and lowers the flag, even for the same address. */
  function ChangeEmailAddress(current: CustomerState, command: ChangeCustomerEmailAddress): (r: CustomerState)
    ensures r.id == current.id && r.name == current.name
    ensures r.emailAddress == command.emailAddress && r.confirmationHash == command.confirmationHash
    ensures !r.isConfirmed
  {
    CustomerState(current.id, command.emailAddress, command.confirmationHash, current.name, false)
  }

  /**
   * Against the event-sourced decision on an agreeing projection: an
   * exception exactly where ConfirmationFailed is emitted, and otherwise a
   * state that agrees with the projection after the emitted events.
   */
  lemma ConfirmAgreesWithEvents(current: CustomerState, p: Projection.State, command: ConfirmCustomerEmailAddress)
    requires Agrees(current, p)
    ensures var r, emitted := ConfirmEmailAddress(current, command), Decisions.ConfirmOn(p, command);
      && (r.Failure? <==> emitted == [CustomerEmailAddressConfirmationFailed(command.customerID)])
      && Agrees(if r.Success? then r.value else current, Projection.FoldFrom(p, emitted))
  {
    var emitted := Decisions.ConfirmOn(p, command);
    if emitted != [] {
      assert Projection.FoldFrom(p, emitted) == Projection.Apply(p, emitted[0]);
    }
  }

  /** A changed address agrees with the event-sourced change when the address really differs. */
  lemma ChangeEmailAddressAgreesWithEvents(current: CustomerState, p: Projection.State, command: ChangeCustomerEmailAddress)
    requires Agrees(current, p) && command.emailAddress != current.emailAddress
    ensures Agrees(ChangeEmailAddress(current, command),
                   Projection.FoldFrom(p, Decisions.ChangeEmailAddress(p.emailAddress, command)))
  {
    var emitted := Decisions.ChangeEmailAddress(p.emailAddress, command);
    assert Projection.FoldFrom(p, emitted) == Projection.Apply(p, emitted[0]);
  }

  /** Confirmed, then changed: only the new hash confirms again. */
  lemma ConfirmAfterChange(current: CustomerState, confirm: ConfirmCustomerEmailAddress,
                           change: ChangeCustomerEmailAddress, again: ConfirmCustomerEmailAddress)
    requires ConfirmEmailAddress(current, confirm).Success?
    ensures var changed := ChangeEmailAddress(ConfirmEmailAddress(current, confirm).value, change);
      ConfirmEmailAddress(changed, again)
      == if again.confirmationHash == change.confirmationHash
         then Success(changed.(isConfirmed := true))
         else Failure(WrongConfirmationHash)
  {
  }
}
