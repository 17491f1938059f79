/**
 * src/domain/functional/traditional/customer/Customer4.java: static
 * functions from the current state to a new one. Confirming looks at the
 * flag before the hash, so a confirmed customer accepts any hash.
 */
module FunctionalTraditionalCustomer4 {
  import opened Wrappers
  import opened Values
  import opened Events
  import opened Commands
  import opened Failures
  import opened TraditionalState
  import Projection
  import Decisions

  function Register(command: RegisterCustomer): (s: CustomerState)
    ensures s.id == command.customerID
    ensures Agrees(s, Projection.Fold([Decisions.Registered(command)]))
  {
    Unconfirmed(command.customerID, command.emailAddress, command.confirmationHash, command.name)
  }

  /** Throws only for an unconfirmed customer and a wrong hash; otherwise the flag is up. */
  function ConfirmEmailAddress(current: CustomerState, command: ConfirmCustomerEmailAddress): (r: Result<CustomerState, Exception>)
    ensures r.Failure? <==> !current.isConfirmed && command.confirmationHash != current.confirmationHash
    ensures r.Failure? ==> r.error == HashDoesNotMatch
    ensures current.isConfirmed ==> r == Success(current)
    ensures r.Success? ==> r.value == current.(isConfirmed := true)
  {
    if current.isConfirmed then
      Success(current)
    else if command.confirmationHash != current.confirmationHash then
      Failure(HashDoesNotMatch)
    else
      Success(CustomerState(current.id, current.emailAddress, current.confirmationHash, current.name, true))
  }

  /** Takes the new address and hash and lowers the flag, even for the same address. */
  function ChangeEmailAddress(current: CustomerState, command: ChangeCustomerEmailAddress): (r: CustomerState)
    ensures r.id == current.id && r.name == current.name
    ensures r.emailAddress == command.emailAddress && r.confirmationHash == command.confirmationHash
    ensures !r.isConfirmed
  {
    CustomerState(current.id, command.emailAddress, command.confirmationHash, current.name, false)
  }

  /** Replaces the name and nothing else. */
  function ChangeName(current: CustomerState, command: ChangeCustomerName): (r: CustomerState)
    ensures r == current.(name := command.name)
  {
    CustomerState(current.id, current.emailAddress, current.confirmationHash, command.name, current.isConfirmed)
  }

  /**
   * Against the event-sourced decision on an agreeing projection: the state
   * afterwards agrees with the projection after the emitted events, and an
   * exception is thrown exactly where a ConfirmationFailed is emitted to an
   * unconfirmed customer.
   */
  lemma ConfirmAgreesWithEvents(current: CustomerState, p: Projection.State, command: ConfirmCustomerEmailAddress)
    requires Agrees(current, p)
    ensures var r, emitted := ConfirmEmailAddress(current, command), Decisions.ConfirmOn(p, command);
      && (r.Failure? <==> emitted == [CustomerEmailAddressConfirmationFailed(command.customerID)] && !current.isConfirmed)
      && Agrees(if r.Success? then r.value else current, Projection.FoldFrom(p, emitted))
  {
    var emitted := Decisions.ConfirmOn(p, command);
    if emitted != [] {
      assert Projection.FoldFrom(p, emitted) == Projection.Apply(p, emitted[0]);
    }
  }

  /** Where the two styles part: a confirmed customer and a wrong hash pass here but fail as events. */
  lemma ConfirmedIgnoresWrongHash(current: CustomerState, p: Projection.State, command: ConfirmCustomerEmailAddress)
    requires Agrees(current, p) && current.isConfirmed && command.confirmationHash != current.confirmationHash
    ensures ConfirmEmailAddress(current, command) == Success(current)
    ensures Decisions.ConfirmOn(p, command) == [CustomerEmailAddressConfirmationFailed(command.customerID)]
  {
  }

  /** A changed address agrees with the event-sourced change when the address really differs. */
  lemma ChangeEmailAddressAgreesWithEvents(current: CustomerState, p: Projection.State, command: ChangeCustomerEmailAddress)
    requires Agrees(current, p) && command.emailAddress != current.emailAddress
    ensures var emitted := Decisions.ChangeEmailAddress(p.emailAddress, command);
      && emitted == [CustomerEmailAddressChanged(command.customerID, command.emailAddress, command.confirmationHash)]
      && Agrees(ChangeEmailAddress(current, command), Projection.FoldFrom(p, emitted))
  {
    var emitted := Decisions.ChangeEmailAddress(p.emailAddress, command);
    assert Projection.FoldFrom(p, emitted) == Projection.Apply(p, emitted[0]);
  }

  /** With the same address nothing is emitted as events, yet here the flag drops and the hash is replaced. */
  lemma ChangeToSameAddressResetsConfirmation(current: CustomerState, p: Projection.State, command: ChangeCustomerEmailAddress)
    requires Agrees(current, p) && command.emailAddress == current.emailAddress
    ensures Decisions.ChangeEmailAddress(p.emailAddress, command) == []
    ensures var r := ChangeEmailAddress(current, command);
      !r.isConfirmed && r.confirmationHash == command.confirmationHash && r.emailAddress == current.emailAddress
  {
  }

  /** A changed name always agrees with the event-sourced change. */
  lemma ChangeNameAgreesWithEvents(current: CustomerState, p: Projection.State, command: ChangeCustomerName)
    requires Agrees(current, p)
    ensures Agrees(ChangeName(current, command), Projection.FoldFrom(p, Decisions.ChangeName(p.name, command)))
  {
    var emitted := Decisions.ChangeName(p.name, command);
    if emitted != [] {
      assert Projection.FoldFrom(p, emitted) == Projection.Apply(p, emitted[0]);
    }
  }

  /** Confirming again with the same command changes nothing. */
  lemma ConfirmIdempotent(current: CustomerState, command: ConfirmCustomerEmailAddress)
    requires ConfirmEmailAddress(current, command).Success?
    ensures var once := ConfirmEmailAddress(current, command).value;
      ConfirmEmailAddress(once, command) == Success(once)
  {
  }

  /** Confirmed, then changed: a hash other than the new one throws again, and the new one confirms. */
  lemma ConfirmAfterChange(current: CustomerState, confirm: ConfirmCustomerEmailAddress,
                           change: ChangeCustomerEmailAddress, again: ConfirmCustomerEmailAddress)
    requires ConfirmEmailAddress(current, confirm).Success?
    ensures var changed := ChangeEmailAddress(ConfirmEmailAddress(current, confirm).value, change);
      ConfirmEmailAddress(changed, again)
      == if again.confirmationHash == change.confirmationHash
         then Success(changed.(isConfirmed := true))
         else Failure(HashDoesNotMatch)
  {
  }
}
