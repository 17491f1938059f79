/**
 * src/domain/oop/traditional/customer/Customer3.java: a mutable aggregate
 * whose methods overwrite its fields. Confirming looks at the flag before
 * the hash, as FunctionalTraditionalCustomer4 does.
 */
module OopTraditionalCustomer3 {
  import opened Wrappers
  import opened Values
  import opened Commands
  import opened Failures
  import opened TraditionalState
  import FunctionalTraditionalCustomer4

  class Customer3 {
    const id: ID
    var emailAddress: EmailAddress
    var confirmationHash: Hash
    var isEmailAddressConfirmed: bool
    var name: PersonName

    /** The fields as a current-state value. */
    function Snapshot(): CustomerState
      reads this
    {
      CustomerState(id, emailAddress, confirmationHash, name, isEmailAddressConfirmed)
    }

    constructor (id: ID, emailAddress: EmailAddress, confirmationHash: Hash, name: PersonName)
      ensures Snapshot() == Unconfirmed(id, emailAddress, confirmationHash, name)
    {
      this.id := id;
      this.emailAddress := emailAddress;
      this.confirmationHash := confirmationHash;
      this.name := name;
      this.isEmailAddressConfirmed := false;
    }

    static method Register(command: RegisterCustomer) returns (customer: Customer3)
      ensures fresh(customer)
      ensures customer.Snapshot() == FunctionalTraditionalCustomer4.Register(command)
    {
      customer := new Customer3(command.customerID, command.emailAddress, command.confirmationHash, command.name);
    }

    /** An unconfirmed customer and a wrong hash throw and change nothing; otherwise the flag goes up. */
    method ConfirmEmailAddress(command: ConfirmCustomerEmailAddress) returns (outcome: Outcome<Exception>)
      modifies this
      ensures var r := FunctionalTraditionalCustomer4.ConfirmEmailAddress(old(Snapshot()), command);
        && (outcome.Fail? <==> r.Failure?)
        && (outcome.Fail? ==> outcome.error == r.error && Snapshot() == old(Snapshot()))
        && (outcome.Pass? ==> Snapshot() == r.value)
    {
      if isEmailAddressConfirmed {
        return Pass;
      }
      if command.confirmationHash != confirmationHash {
        return Fail(HashDoesNotMatch);
      }
      isEmailAddressConfirmed := true;
      return Pass;
    }

    method ChangeEmailAddress(command: ChangeCustomerEmailAddress)
      modifies this
      ensures Snapshot() == FunctionalTraditionalCustomer4.ChangeEmailAddress(old(Snapshot()), command)
    {
      emailAddress := command.emailAddress;
      confirmationHash := command.confirmationHash;
      isEmailAddressConfirmed := false;
    }

    method ChangeName(command: ChangeCustomerName)
      modifies this
      ensures Snapshot() == FunctionalTraditionalCustomer4.ChangeName(old(Snapshot()), command)
    {
      name := command.name;
    }
  }

  /**
   * Register, confirm with the registered hash, change the address, confirm
   * again: the second confirmation throws unless it carries the new hash,
   * and the flag ends up exactly when it does.
   */
  method ConfirmAfterChange(register: RegisterCustomer, confirm: ConfirmCustomerEmailAddress,
                            change: ChangeCustomerEmailAddress, again: ConfirmCustomerEmailAddress)
    returns (first: Outcome<Exception>, second: Outcome<Exception>, confirmed: bool)
    requires confirm.confirmationHash == register.confirmationHash
    ensures first == Pass
    ensures second == if again.confirmationHash == change.confirmationHash then Pass else Fail(HashDoesNotMatch)
    ensures confirmed == (again.confirmationHash == change.confirmationHash)
  {
    var customer := Customer3.Register(register);
    first := customer.ConfirmEmailAddress(confirm);
    customer.ChangeEmailAddress(change);
    second := customer.ConfirmEmailAddress(again);
    confirmed := customer.isEmailAddressConfirmed;
  }

  /** A confirmed customer takes any hash without complaint, and stays confirmed. */
  method ConfirmedAcceptsAnyHash(register: RegisterCustomer, confirm: ConfirmCustomerEmailAddress,
                                 again: ConfirmCustomerEmailAddress)
    returns (second: Outcome<Exception>, confirmed: bool)
    requires confirm.confirmationHash == register.confirmationHash
    ensures second == Pass && confirmed
  {
    var customer := Customer3.Register(register);
    var _ := customer.ConfirmEmailAddress(confirm);
    second := customer.ConfirmEmailAddress(again);
    confirmed := customer.isEmailAddressConfirmed;
  }
}
