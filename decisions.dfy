/**
 * The decision table that every event-sourced handler implements: which
 * events (none or one) a command yields, given the fields it reads.
 * Each variant's handler is proved equal to one of these functions.
 */
module Decisions {
  import opened Wrappers
  import opened Values
  import opened Events
  import opened Commands
  import opened Projection

  /** `register`: the registration event, carrying the command's fields. */
  function Registered(command: RegisterCustomer): (e: Event)
    ensures e.CustomerRegistered? && e.customerID == command.customerID
    ensures Fold([e]) == State(None, Some(command.emailAddress), Some(command.confirmationHash), Some(command.name), None)
  {
    var e := CustomerRegistered(command.customerID, command.emailAddress, command.confirmationHash, command.name);
    FoldSnoc(Unset, [], e);
    assert [] + [e] == [e];
    e
  }

  /**
   * `confirmEmailAddress`: a hash that differs from the current one fails,
   * whatever the flag; a matching hash confirms once and then yields nothing.
   */
  function Confirm(current: Option<Hash>, confirmed: bool, command: ConfirmCustomerEmailAddress): (r: seq<Event>)
    ensures r == [CustomerEmailAddressConfirmationFailed(command.customerID)] <==> current != Some(command.confirmationHash)
    ensures r == [] <==> current == Some(command.confirmationHash) && confirmed
    ensures r == [CustomerEmailAddressConfirmed(command.customerID)] <==> current == Some(command.confirmationHash) && !confirmed
  {
    if current != Some(command.confirmationHash) then
      [CustomerEmailAddressConfirmationFailed(command.customerID)]
    else if confirmed then
      []
    else
      [CustomerEmailAddressConfirmed(command.customerID)]
  }

  /** `changeEmailAddress`: nothing for the current address, otherwise the change with the command's new hash. */
  function ChangeEmailAddress(current: Option<EmailAddress>, command: ChangeCustomerEmailAddress): (r: seq<Event>)
    ensures r == [] <==> current == Some(command.emailAddress)
    ensures r != [] ==> r == [CustomerEmailAddressChanged(command.customerID, command.emailAddress, command.confirmationHash)]
  {
    if current == Some(command.emailAddress) then
      []
    else
      [CustomerEmailAddressChanged(command.customerID, command.emailAddress, command.confirmationHash)]
  }

  /** `changeName`: nothing for the current name, otherwise the change. */
  function ChangeName(current: Option<PersonName>, command: ChangeCustomerName): (r: seq<Event>)
    ensures r == [] <==> current == Some(command.name)
    ensures r != [] ==> r == [CustomerNameChanged(command.customerID, command.name)]
  {
    if current == Some(command.name) then
      []
    else
      [CustomerNameChanged(command.customerID, command.name)]
  }

  /** Confirm on a projected state, with its flag read as a primitive. */
  function ConfirmOn(s: State, command: ConfirmCustomerEmailAddress): seq<Event> {
    Confirm(s.confirmationHash, Confirmed(s), command)
  }

  /**
   * Applying what Confirm yields and confirming again with the same command
   * yields nothing, unless the hash was wrong: then it fails again.
   */
  lemma ConfirmRepeated(s: State, command: ConfirmCustomerEmailAddress)
    ensures var r := ConfirmOn(s, command);
      ConfirmOn(FoldFrom(s, r), command) == if s.confirmationHash != Some(command.confirmationHash) then r else []
    ensures FoldFrom(s, ConfirmOn(s, command)).confirmationHash == s.confirmationHash
  {
    var r := ConfirmOn(s, command);
    if r != [] {
      assert FoldFrom(s, r) == Apply(s, r[0]);
    }
  }

  /** Applying what ChangeEmailAddress yields and repeating the command yields nothing. */
  lemma ChangeEmailAddressRepeated(s: State, command: ChangeCustomerEmailAddress)
    ensures ChangeEmailAddress(FoldFrom(s, ChangeEmailAddress(s.emailAddress, command)).emailAddress, command) == []
  {
    var r := ChangeEmailAddress(s.emailAddress, command);
    if r != [] {
      assert FoldFrom(s, r) == Apply(s, r[0]);
    }
  }

  /** Applying what ChangeName yields and repeating the command yields nothing. */
  lemma ChangeNameRepeated(s: State, command: ChangeCustomerName)
    ensures ChangeName(FoldFrom(s, ChangeName(s.name, command)).name, command) == []
  {
    var r := ChangeName(s.name, command);
    if r != [] {
      assert FoldFrom(s, r) == Apply(s, r[0]);
    }
  }

  /**
   * After an address change only the new hash confirms, and it confirms even
   * if the old address had been confirmed; every other hash, the old one
   * included, fails.
   */
  lemma ChangedHashSupersedes(s: State, id: ID, email: EmailAddress, hash: Hash, command: ConfirmCustomerEmailAddress)
    ensures ConfirmOn(Apply(s, CustomerEmailAddressChanged(id, email, hash)), command)
         == if command.confirmationHash == hash
            then [CustomerEmailAddressConfirmed(command.customerID)]
            else [CustomerEmailAddressConfirmationFailed(command.customerID)]
  {
  }
}
