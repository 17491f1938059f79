/** Option, Result and Outcome: a Java null, a return-or-throw and a void-or-throw. */
module Wrappers {
  datatype Option<+T> = None | Some(value: T)

  datatype Result<+R, +E> = Success(value: R) | Failure(error: E)

  datatype Outcome<+E> = Pass | Fail(error: E)
}

/**
 * The value objects of the customer domain. Each wraps strings and compares
 * them field by field, so Dafny's structural equality is their `equals`.
 */
module Values {
  datatype ID = ID(value: string)

  datatype Hash = Hash(value: string)

  datatype EmailAddress = EmailAddress(value: string)

  datatype PersonName = PersonName(givenName: string, familyName: string)
}

/** The five domain events; every event class is final, so one constructor each. */
module Events {
  import opened Values

  datatype Event =
    | CustomerRegistered(customerID: ID, emailAddress: EmailAddress, confirmationHash: Hash, name: PersonName)
    | CustomerEmailAddressConfirmed(customerID: ID)
    | CustomerEmailAddressConfirmationFailed(customerID: ID)
    | CustomerEmailAddressChanged(customerID: ID, emailAddress: EmailAddress, confirmationHash: Hash)
    | CustomerNameChanged(customerID: ID, name: PersonName)
}

/**
 * The four commands. Ids and hashes that the command classes generate at
 * random are ordinary fields here: whoever builds the command supplies them.
 */
module Commands {
  import opened Values

  datatype RegisterCustomer =
    RegisterCustomer(customerID: ID, emailAddress: EmailAddress, confirmationHash: Hash, name: PersonName)

  datatype ConfirmCustomerEmailAddress =
    ConfirmCustomerEmailAddress(customerID: ID, confirmationHash: Hash)

  datatype ChangeCustomerEmailAddress =
    ChangeCustomerEmailAddress(customerID: ID, emailAddress: EmailAddress, confirmationHash: Hash)

  datatype ChangeCustomerName =
    ChangeCustomerName(customerID: ID, name: PersonName)
}

/** The exceptions a handler can end in. */
module Failures {
  datatype Exception =
      /** `new Exception("confirmation hash does not match")` */
    | HashDoesNotMatch
      /** `WrongConfirmationHashException` */
    | WrongConfirmationHash
      /** the NullPointerException of unboxing a null `Boolean` */
    | NullUnboxing
}
