/**
 * src/domain/functional/es/customer/Customer6.java: static handlers that
 * first rebuild the state from the whole history (CustomerState.reconstitute,
 * whose result is `Fold(events)`) and then decide.
 */
module FunctionalEsCustomer6 {
  import opened Wrappers
  import opened Values
  import opened Events
  import opened Commands
  import opened Projection
  import Decisions

  function Register(command: RegisterCustomer): (e: Event)
    ensures e == Decisions.Registered(command)
  {
    CustomerRegistered(command.customerID, command.emailAddress, command.confirmationHash, command.name)
  }

  /**
   * The flag test names a field the state class does not declare; it is read
   * here as the projection's flag, with null taken as false.
   */
  function ConfirmEmailAddress(events: seq<Event>, command: ConfirmCustomerEmailAddress): (r: seq<Event>)
    requires Fold(events).confirmationHash.Some?
    ensures r == Decisions.Confirm(Fold(events).confirmationHash, Confirmed(Fold(events)), command)
  {
    var current := Fold(events);
    if current.confirmationHash.value != command.confirmationHash then
      [CustomerEmailAddressConfirmationFailed(command.customerID)]
    else if Confirmed(current) then
      []
    else
      [CustomerEmailAddressConfirmed(command.customerID)]
  }

  function ChangeEmailAddress(events: seq<Event>, command: ChangeCustomerEmailAddress): (r: seq<Event>)
    requires Fold(events).emailAddress.Some?
    ensures r == Decisions.ChangeEmailAddress(Fold(events).emailAddress, command)
  {
    var current := Fold(events);
    if current.emailAddress.value == command.emailAddress then
      []
    else
      [CustomerEmailAddressChanged(command.customerID, command.emailAddress, command.confirmationHash)]
  }

  function ChangeName(events: seq<Event>, command: ChangeCustomerName): (r: seq<Event>)
    requires Fold(events).name.Some?
    ensures r == Decisions.ChangeName(Fold(events).name, command)
  {
    var current := Fold(events);
    if current.name.value == command.name then
      []
    else
      [CustomerNameChanged(command.customerID, command.name)]
  }

  /**
   * Appending what confirm yields to the history and confirming again yields
   * nothing, unless the hash was wrong: then it fails again.
   */
  lemma ConfirmAgainAfterAppend(events: seq<Event>, command: ConfirmCustomerEmailAddress)
    requires Fold(events).confirmationHash.Some?
    ensures var r := ConfirmEmailAddress(events, command);
      && Fold(events + r).confirmationHash.Some?
      && ConfirmEmailAddress(events + r, command)
         == if r == [CustomerEmailAddressConfirmationFailed(command.customerID)] then r else []
  {
    var r := ConfirmEmailAddress(events, command);
    FoldSplit(events, r);
    Decisions.ConfirmRepeated(Fold(events), command);
  }

  /** Appending what changeEmailAddress yields and repeating the command yields nothing. */
  lemma ChangeEmailAddressAgainAfterAppend(events: seq<Event>, command: ChangeCustomerEmailAddress)
    requires Fold(events).emailAddress.Some?
    ensures var r := ChangeEmailAddress(events, command);
      Fold(events + r).emailAddress.Some? && ChangeEmailAddress(events + r, command) == []
  {
    var r := ChangeEmailAddress(events, command);
    FoldSplit(events, r);
    FoldFromKeepsSet(Fold(events), r);
    Decisions.ChangeEmailAddressRepeated(Fold(events), command);
  }

  /** Appending what changeName yields and repeating the command yields nothing. */
  lemma ChangeNameAgainAfterAppend(events: seq<Event>, command: ChangeCustomerName)
    requires Fold(events).name.Some?
    ensures var r := ChangeName(events, command);
      Fold(events + r).name.Some? && ChangeName(events + r, command) == []
  {
    var r := ChangeName(events, command);
    FoldSplit(events, r);
    FoldFromKeepsSet(Fold(events), r);
    Decisions.ChangeNameRepeated(Fold(events), command);
  }

  /**
   * Registered, then confirmed, then changed: the new hash confirms, and any
   * other hash, the registration's included, fails.
   */
  lemma ConfirmAfterConfirmedAndChanged(id: ID, email: EmailAddress, hash: Hash, name: PersonName,
                                        newEmail: EmailAddress, newHash: Hash, command: ConfirmCustomerEmailAddress)
    ensures var events := [CustomerRegistered(id, email, hash, name), CustomerEmailAddressConfirmed(id),
                           CustomerEmailAddressChanged(id, newEmail, newHash)];
      && Fold(events).confirmationHash.Some?
      && ConfirmEmailAddress(events, command)
         == if command.confirmationHash == newHash
            then [CustomerEmailAddressConfirmed(command.customerID)]
            else [CustomerEmailAddressConfirmationFailed(command.customerID)]
  {
    FoldRegisteredConfirmedChanged(id, email, hash, name, newEmail, newHash);
  }
}
