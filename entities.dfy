/**
 * The persisted entities of the pet store service (pet store, employee,
 * customer) and the transfer records the service builds from them
 * (PetStoreData, PetStoreEmployee).
 *
 * The entity classes and those two transfer classes are reconstructed from
 * the getters and setters the service calls. A relationship is held as the
 * identifier of the record on the other side (a foreign key) and a
 * relationship collection as a set of identifiers.
 */
module Entities {

  /** A database identity: a Java `Long`, taken as unbounded here. */
  type Id = int

  /** A nullable value: `None` stands for Java's `null`. */
  datatype Option<+T> = None | Some(value: T)

  /** The two ways a service operation fails. */
  datatype Error =
    | NotFound         // NoSuchElementException: a lookup by ID found nothing
    | IllegalArgument  // IllegalArgumentException: the record is not linked to the given store

  /** The outcome of an operation that either returns a value or throws. */
  datatype Result<+T> = Ok(value: T) | Err(error: Error)

  datatype PetStore = PetStore(
    petStoreId: Option<Id>,
    petStoreName: string,
    petStoreAddress: string,
    petStoreCity: string,
    petStoreState: string,
    petStoreZip: string,
    petStorePhone: string,
    employees: set<Id>,   // the store's employee collection
    customers: set<Id>)   // the store's customer collection

  datatype Employee = Employee(
    employeeId: Option<Id>,
    employeeFirstName: string,
    employeeLastName: string,
    employeePhone: string,
    employeeJobTittle: string,   // spelled as in the getter getEmployeeJobTittle
    petStore: Option<Id>)        // the owning store

  datatype Customer = Customer(
    customerId: Option<Id>,
    customerFirstName: string,
    customerLastName: string,
    customerEmail: string,
    petStores: set<Id>)   // the stores the customer is associated with

  /** `new PetStore()`: no identity yet and empty relationship collections. */
  const NewPetStore := PetStore(None, "", "", "", "", "", "", {}, {})

  /** `new Employee()`: no identity and no owning store yet. */
  const NewEmployee := Employee(None, "", "", "", "", None)

  /** `new Customer()`: no identity and no associated stores yet. */
  const NewCustomer := Customer(None, "", "", "", {})

  /** The pet store transfer object; its nested collections are given by the ids they hold. */
  datatype PetStoreData = PetStoreData(
    petStoreId: Option<Id>,
    petStoreName: string,
    petStoreAddress: string,
    petStoreCity: string,
    petStoreState: string,
    petStoreZip: string,
    petStorePhone: string,
    employees: set<Id>,
    customers: set<Id>)

  /** `new PetStoreData()`: every field unset and both collections empty. */
  const EmptyPetStoreData := PetStoreData(None, "", "", "", "", "", "", {}, {})

  /** The employee transfer object. */
  datatype PetStoreEmployee = PetStoreEmployee(
    employeeId: Option<Id>,
    employeeFirstName: string,
    employeeLastName: string,
    employeePhone: string,
    employeeJobTittle: string)

  /** The six descriptive fields of a store agree with those of a transfer object. */
  predicate SameDescription(ps: PetStore, data: PetStoreData) {
    && ps.petStoreName == data.petStoreName
    && ps.petStoreAddress == data.petStoreAddress
    && ps.petStoreCity == data.petStoreCity
    && ps.petStoreState == data.petStoreState
    && ps.petStoreZip == data.petStoreZip
    && ps.petStorePhone == data.petStorePhone
  }

  /** The four personal fields of an employee agree with those of a transfer object. */
  predicate SameEmployeeDetails(e: Employee, data: PetStoreEmployee) {
    && e.employeeFirstName == data.employeeFirstName
    && e.employeeLastName == data.employeeLastName
    && e.employeePhone == data.employeePhone
    && e.employeeJobTittle == data.employeeJobTittle
  }

  /** `new PetStoreData(petStore)`: the full view, relationship collections included. */
  function PetStoreDataOf(ps: PetStore): PetStoreData {
    PetStoreData(ps.petStoreId, ps.petStoreName, ps.petStoreAddress, ps.petStoreCity,
                 ps.petStoreState, ps.petStoreZip, ps.petStorePhone, ps.employees, ps.customers)
  }

  /** `new PetStoreEmployee(employee)`: the employee's identity and four personal fields. */
  function PetStoreEmployeeOf(e: Employee): PetStoreEmployee {
    PetStoreEmployee(e.employeeId, e.employeeFirstName, e.employeeLastName,
                     e.employeePhone, e.employeeJobTittle)
  }
}
