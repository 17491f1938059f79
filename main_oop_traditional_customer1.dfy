/**
 * src/main/java/domain/oop/traditional/customer/Customer1.java: a mutable
 * aggregate whose methods overwrite its fields. Confirming checks only the
 * hash, as MainFunctionalTraditionalCustomer2 does.
 */
module MainOopTraditionalCustomer1 {
  import opened Wrappers
  import opened Values
  import opened Commands
  import opened Failures
  import opened TraditionalState
  import MainFunctionalTraditionalCustomer2

  class Customer1 {
    const id: ID
    var emailAddress: EmailAddress
    var confirmationHash: Hash
    var isEmailAddressConfirmed: bool
    var name: PersonName

    /** The fields as a current-state value. */
    function Snapshot(): CustomerState
      reads this
    {
      CustomerState(id, emailAddress, confirmationHash, name, isEmailAddressConfirmed)
    }

    constructor (id: ID, emailAddress: EmailAddress, confirmationHash: Hash, name: PersonName)
      ensures Snapshot() == Unconfirmed(id, emailAddress, confirmationHash, name)
    {
      this.id := id;
      this.emailAddress := emailAddress;
      this.confirmationHash := confirmationHash;
      this.name := name;
      this.isEmailAddressConfirmed := false;
    }

    static method Register(command: RegisterCustomer) returns (customer: Customer1)
      ensures fresh(customer)
      ensures customer.Snapshot() == MainFunctionalTraditionalCustomer2.Register(command)
    {
      customer := new Customer1(command.customerID, command.emailAddress, command.confirmationHash, command.name);
    }

    /** A wrong hash throws and changes nothing, whatever the flag; a right one raises the flag. */
    method ConfirmEmailAddress(command: ConfirmCustomerEmailAddress) returns (outcome: Outcome<Exception>)
      modifies this
      ensures var r := MainFunctionalTraditionalCustomer2.ConfirmEmailAddress(old(Snapshot()), command);
        && (outcome.Fail? <==> r.Failure?)
        && (outcome.Fail? ==> outcome.error == r.error && Snapshot() == old(Snapshot()))
        && (outcome.Pass? ==> Snapshot() == r.value)
    {
      if command.confirmationHash != confirmationHash {
        return Fail(WrongConfirmationHash);
      }
      isEmailAddressConfirmed := true;
      return Pass;
    }

    method ChangeEmailAddress(command: ChangeCustomerEmailAddress)
      modifies this
      ensures Snapshot() == MainFunctionalTraditionalCustomer2.ChangeEmailAddress(old(Snapshot()), command)
    {
      emailAddress := command.emailAddress;
      confirmationHash := command.confirmationHash;
      isEmailAddressConfirmed := false;
    }
  }

  /** Confirming twice with the right hash is harmless: both pass and the flag is up. */
  method ConfirmTwice(register: RegisterCustomer, confirm: ConfirmCustomerEmailAddress)
    returns (first: Outcome<Exception>, second: Outcome<Exception>, confirmed: bool)
    ensures first == second
    ensures first == if confirm.confirmationHash == register.confirmationHash then Pass else Fail(WrongConfirmationHash)
    ensures confirmed == (confirm.confirmationHash == register.confirmationHash)
  {
    var customer := Customer1.Register(register);
    first := customer.ConfirmEmailAddress(confirm);
    second := customer.ConfirmEmailAddress(confirm);
    confirmed := customer.isEmailAddressConfirmed;
  }

  /** A confirmed customer still rejects a wrong hash, and stays confirmed. */
  method ConfirmedRejectsWrongHash(register: RegisterCustomer, confirm: ConfirmCustomerEmailAddress,
                                   again: ConfirmCustomerEmailAddress)
    returns (second: Outcome<Exception>, confirmed: bool)
    requires confirm.confirmationHash == register.confirmationHash && again.confirmationHash != register.confirmationHash
    ensures second == Fail(WrongConfirmationHash) && confirmed
  {
    var customer := Customer1.Register(register);
    var _ := customer.ConfirmEmailAddress(confirm);
    second := customer.ConfirmEmailAddress(again);
    confirmed := customer.isEmailAddressConfirmed;
  }

  /** Changing the address, even to the same one, lowers the flag; only the new hash confirms afterwards. */
  method ConfirmAfterChange(register: RegisterCustomer, confirm: ConfirmCustomerEmailAddress,
                            change: ChangeCustomerEmailAddress, again: ConfirmCustomerEmailAddress)
    returns (confirmedAfterChange: bool, second: Outcome<Exception>)
    requires confirm.confirmationHash == register.confirmationHash
    ensures !confirmedAfterChange
    ensures second == if again.confirmationHash == change.confirmationHash then Pass else Fail(WrongConfirmationHash)
  {
    var customer := Customer1.Register(register);
    var _ := customer.ConfirmEmailAddress(confirm);
    customer.ChangeEmailAddress(change);
    confirmedAfterChange := customer.isEmailAddressConfirmed;
    second := customer.ConfirmEmailAddress(again);
  }
}
