/**
 * The current-state record of the traditional variants
 * (src/domain/functional/traditional/customer/CustomerState.java): every
 * field is set at registration, so none of them is ever null here.
 */
module TraditionalState {
  import opened Wrappers
  import opened Values
  import Projection

  datatype CustomerState =
    CustomerState(id: ID, emailAddress: EmailAddress, confirmationHash: Hash, name: PersonName, isConfirmed: bool)

  /** The four-argument constructor: the flag starts down. */
  function Unconfirmed(id: ID, emailAddress: EmailAddress, confirmationHash: Hash, name: PersonName): (s: CustomerState)
    ensures !s.isConfirmed
    ensures s.(isConfirmed := true) == CustomerState(id, emailAddress, confirmationHash, name, true)
  {
    CustomerState(id, emailAddress, confirmationHash, name, false)
  }

  /**
   * A current state and an event-sourced projection describe the same
   * customer: same address, hash and name, and the projection's flag, null
   * read as false, equals the state's.
   */
  predicate Agrees(s: CustomerState, p: Projection.State)
  {
    && p.emailAddress == Some(s.emailAddress)
    && p.confirmationHash == Some(s.confirmationHash)
    && p.name == Some(s.name)
    && Projection.Confirmed(p) == s.isConfirmed
  }
}
