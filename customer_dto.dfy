/**
 * The customer transfer object: a mutable record of exactly four fields,
 * the customer's identity, names and e-mail. It carries no reference to the
 * stores the customer is associated with.
 */
module CustomerDto {
  import opened Entities

  class PetStoreCustomerDTO {
    var customerId: Option<Id>
    var customerFirstName: string
    var customerLastName: string
    var customerEmail: string

    /** The all-arguments constructor: each field takes the matching argument. */
    constructor (customerId: Option<Id>, customerFirstName: string,
                 customerLastName: string, customerEmail: string)
      ensures this.customerId == customerId
      ensures this.customerFirstName == customerFirstName
      ensures this.customerLastName == customerLastName
      ensures this.customerEmail == customerEmail
    {
      this.customerId := customerId;
      this.customerFirstName := customerFirstName;
      this.customerLastName := customerLastName;
      this.customerEmail := customerEmail;
    }

    /** Copies the identity, names and e-mail of a customer entity; its stores are not carried. */
    constructor FromCustomer(customer: Customer)
      ensures customerId == customer.customerId
      ensures customerFirstName == customer.customerFirstName
      ensures customerLastName == customer.customerLastName
      ensures customerEmail == customer.customerEmail
    {
      customerId := customer.customerId;
      customerFirstName := customer.customerFirstName;
      customerLastName := customer.customerLastName;
      customerEmail := customer.customerEmail;
    }

    function GetCustomerId(): Option<Id>
      reads this
    {
      customerId
    }

    /** Overwrites the identity and nothing else. */
    method SetCustomerId(customerId: Option<Id>)
      modifies this`customerId
      ensures GetCustomerId() == customerId
      ensures customerFirstName == old(customerFirstName)
      ensures customerLastName == old(customerLastName)
      ensures customerEmail == old(customerEmail)
    {
      this.customerId := customerId;
    }

    function GetCustomerFirstName(): string
      reads this
    {
      customerFirstName
    }

    /** Overwrites the first name and nothing else. */
    method SetCustomerFirstName(customerFirstName: string)
      modifies this`customerFirstName
      ensures GetCustomerFirstName() == customerFirstName
      ensures customerId == old(customerId)
      ensures customerLastName == old(customerLastName)
      ensures customerEmail == old(customerEmail)
    {
      this.customerFirstName := customerFirstName;
    }

    function GetCustomerLastName(): string
      reads this
    {
      customerLastName
    }

    /** Overwrites the last name and nothing else. */
    method SetCustomerLastName(customerLastName: string)
      modifies this`customerLastName
      ensures GetCustomerLastName() == customerLastName
      ensures customerId == old(customerId)
      ensures customerFirstName == old(customerFirstName)
      ensures customerEmail == old(customerEmail)
    {
      this.customerLastName := customerLastName;
    }

    function GetCustomerEmail(): string
      reads this
    {
      customerEmail
    }

    /** Overwrites the e-mail and nothing else. */
    method SetCustomerEmail(customerEmail: string)
      modifies this`customerEmail
      ensures GetCustomerEmail() == customerEmail
      ensures customerId == old(customerId)
      ensures customerFirstName == old(customerFirstName)
      ensures customerLastName == old(customerLastName)
    {
      this.customerEmail := customerEmail;
    }
  }

  /** A customer entity's names and e-mail agree with those held by a transfer object. */
  predicate SameCustomerDetails(customer: Customer, dto: PetStoreCustomerDTO)
    reads dto
  {
    && customer.customerFirstName == dto.customerFirstName
    && customer.customerLastName == dto.customerLastName
    && customer.customerEmail == dto.customerEmail
  }
}
