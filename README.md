# Pet store service: a Dafny model of its business rules

The pet store service manages pet stores, their employees and their customers
over three repositories. This project models its service layer and the
customer transfer object, and proves what each operation does:

- **Find-or-create by nullable ID.** A null ID creates a new record. A present
  ID loads the record or fails with NotFound.
- **Employee ownership.** An existing employee is rejected with IllegalArgument
  when its owning store is not the store named in the request.
- **Customer association.** An existing customer is accepted only when a scan
  of its stores finds the named store.
- **Wiring and stripping.** Saves link both sides of each relationship. Reads
  return stores without their employee and customer collections.

Every failure check runs before any change, so every failing call leaves all
three repositories exactly as they were. The contracts say this directly.

Files:

- `entities.dfy` (module `Entities`): identities, `Option`, the two error kinds,
  `Result`, the three entity records, and the transfer records `PetStoreData`
  and `PetStoreEmployee`. The entity classes and those two transfer classes are
  not part of the modelled service layer. They are rebuilt from the getters
  and setters the service calls. A relationship is held as the other record's ID,
  and a relationship collection as a set of IDs.
- `customer_dto.dfy` (module `CustomerDto`): the class `PetStoreCustomerDTO`.
  It has exactly four fields (`customerId`, first name, last name, e-mail) and
  no reference back to stores. It also has both constructors and the
  getter/setter pairs.
- `service.dfy` (module `Service`): the lookups, field copies and scans as
  functions and methods over the repository maps. Then the class
  `PetStoreService`, whose fields are the three repositories (maps from ID to
  record), the order `findAll` lists stores in, and the set of every store ID
  the repository has issued. Its methods are the public operations, and
  `Valid()` is the invariant they all keep: every record carries the ID it is
  stored under, every stored employee has an owning store, the `findAll` order
  lists each stored store exactly once, and every store ID held anywhere
  (a key, an employee's owning store, a customer's stores) has been issued.

Remaining modelling decisions:

- The repositories' choice of ID for a new record is modelled only as "some ID
  outside a given set" (`Service.UnusedId`). No contract names a particular
  value. For stores that set is every ID issued so far, deleted stores
  included, as a database identity generator never hands an ID out twice.
  Employees and customers are never deleted, so for them the set is the IDs in
  use.
- `retrievePetStoreById` has a `null` branch at
  `src/main/java/pet/store/service/PetStoreService.java:183-185`. It cannot be
  reached, because the lookup either throws or returns a store. In the model
  the lookup returns `Ok` with a record or `Err(NotFound)`, so a missing store
  always ends in NotFound.
- The service adds the new employee (or customer) to the store's collection
  before saving it. In the model the record gets its ID at the save, so its ID
  joins the store's collection right after the save. The state at the end of
  the transaction is the same.
- `new PetStoreData()` is taken to start with empty collections. This is the
  record `retrievePetStoreById` fills field by field.
- `updatePetStore` in the controller writes the path ID into the body before
  calling `savePetStore`. That call is therefore `SavePetStore` with
  `petStoreId == Some(pathId)`.

## Model

| member | source | states |
|---|---|---|
| `CustomerDto.PetStoreCustomerDTO.constructor` | src/main/java/pet/store/controller/model/PetStoreCustomerDTO.java:8-14 | the all-arguments constructor sets each of the four fields to its argument |
| `CustomerDto.PetStoreCustomerDTO.FromCustomer` | src/main/java/pet/store/controller/model/PetStoreCustomerDTO.java:16-21 | the DTO's ID, first name, last name and e-mail are exactly the customer entity's; no store is carried |
| `CustomerDto.PetStoreCustomerDTO.SetCustomerId` | src/main/java/pet/store/controller/model/PetStoreCustomerDTO.java:23-29 | the getter then returns the value set; the other three fields are unchanged |
| `CustomerDto.PetStoreCustomerDTO.SetCustomerFirstName` | src/main/java/pet/store/controller/model/PetStoreCustomerDTO.java:31-37 | the getter then returns the value set; the other three fields are unchanged |
| `CustomerDto.PetStoreCustomerDTO.SetCustomerLastName` | src/main/java/pet/store/controller/model/PetStoreCustomerDTO.java:39-45 | the getter then returns the value set; the other three fields are unchanged |
| `CustomerDto.PetStoreCustomerDTO.SetCustomerEmail` | src/main/java/pet/store/controller/model/PetStoreCustomerDTO.java:47-53 | the getter then returns the value set; the other three fields are unchanged |
| `Service.UnusedId` | src/main/java/pet/store/service/PetStoreService.java:39 | a repository gives a new record an ID outside the set of IDs it must avoid |
| `Service.IdBound` | src/main/java/pet/store/service/PetStoreService.java:39 | some number lies above every ID in use, so an unused ID always exists |
| `Service.RemoveId` | src/main/java/pet/store/service/PetStoreService.java:191 | removing a store from the findAll order keeps exactly the other IDs and keeps them duplicate-free |
| `Service.RemoveAppended` | src/main/java/pet/store/service/PetStoreService.java:191 | removing an ID that was just appended gives back the order from before |
| `Service.CreateThenDeleteRestores` | src/main/java/pet/store/service/PetStoreService.java:188-192 | creating a store and then deleting it restores both the store map and the findAll order |
| `Service.FindPetStoreById` | src/main/java/pet/store/service/PetStoreService.java:50-53 | succeeds exactly when the ID is stored, with that record; otherwise fails with NotFound |
| `Service.FindOrCreatePetStore` | src/main/java/pet/store/service/PetStoreService.java:42-48 | a null ID gives a fresh store with no ID and empty collections; a present ID gives the stored record; fails (NotFound) exactly when a present ID is not stored |
| `Service.CopyPetStoreFields` | src/main/java/pet/store/service/PetStoreService.java:55-63 | the six descriptive fields become the input's; the ID and both collections stay as they were |
| `Service.StrippedPetStoreData` | src/main/java/pet/store/service/PetStoreService.java:172-182 | the single-store view has the store's ID and six descriptive fields, with no employees and no customers |
| `Service.ClearedViewIsStripped` | src/main/java/pet/store/service/PetStoreService.java:156-182 | the full view with both collections cleared, as `retrieveAllPetStores` builds it, equals the view `retrievePetStoreById` builds |
| `Service.RetrievedAfterCopy` | src/main/java/pet/store/service/PetStoreService.java:55-63 | reading a store back after the copy gives the input's six fields with the store's own ID, and no collections |
| `Service.FindEmployeeById` | src/main/java/pet/store/service/PetStoreService.java:86-95 | NotFound when the ID is not stored; IllegalArgument when the employee's owning store differs from the given one; otherwise the stored employee |
| `Service.FindOrCreateEmployee` | src/main/java/pet/store/service/PetStoreService.java:78-84 | succeeds exactly when the ID is null or names an employee owned by the store; a null ID gives a fresh employee; the two failure kinds as above |
| `Service.CopyEmployeeFields` | src/main/java/pet/store/service/PetStoreService.java:97-103 | first name, last name, phone and job title become the input's; the ID and the owning store stay as they were |
| `Service.EmployeeRoundTrip` | src/main/java/pet/store/service/PetStoreService.java:70-75 | the transfer object built from the employee after the copy is the input with the employee's ID |
| `Service.FindCustomerById` | src/main/java/pet/store/service/PetStoreService.java:131-142 | NotFound when the ID is not stored; IllegalArgument when the scan of the customer's stores does not find the given store; otherwise the stored customer |
| `Service.FindOrCreateCustomer` | src/main/java/pet/store/service/PetStoreService.java:123-129 | succeeds exactly when the ID is null (no check at all) or names a customer associated with the store; a null ID gives a fresh customer |
| `Service.CopyCustomerFields` | src/main/java/pet/store/service/PetStoreService.java:144-149 | first name, last name and e-mail become the DTO's; the ID and the stores stay as they were |
| `Service.AddPetStoreToCustomer` | src/main/java/pet/store/service/PetStoreService.java:119-121 | the store is among the customer's stores afterwards, the earlier stores are kept, nothing else is added, and no other field changes |
| `Service.PetStoreService.SavePetStoreRecord` | src/main/java/pet/store/service/PetStoreService.java:39 | repository save: a store with no ID gets one never issued before, which is recorded as issued and appended to the findAll order; a stored one is overwritten in place |
| `Service.PetStoreService.DeletePetStoreRecord` | src/main/java/pet/store/service/PetStoreService.java:191 | repository delete: exactly the store's entry and its place in the findAll order are removed |
| `Service.PetStoreService.FindAllPetStores` | src/main/java/pet/store/service/PetStoreService.java:153 | repository findAll: every stored store, in findAll order |
| `Service.PetStoreService.SaveEmployeeRecord` | src/main/java/pet/store/service/PetStoreService.java:75 | repository save: an employee with no ID gets an unused one; a stored one is overwritten in place |
| `Service.PetStoreService.SaveCustomerRecord` | src/main/java/pet/store/service/PetStoreService.java:115 | repository save: a customer with no ID gets an unused one; a stored one is overwritten in place |
| `Service.PetStoreService.SavePetStore` | src/main/java/pet/store/service/PetStoreService.java:33-40 | fails with NotFound, changing nothing, exactly when a present ID is not stored; a null ID creates a store under an ID never issued before (so no employee or customer refers to it), with empty collections; a present ID keeps that ID, overwrites the six fields and leaves both collections as they were; the result is the full view of the saved store; employees and customers are untouched |
| `Service.PetStoreService.RetrieveAllPetStores` | src/main/java/pet/store/service/PetStoreService.java:151-166 | one entry per stored store, in findAll order: entry i carries the ID at position i of that order and that store's descriptive fields, with empty employee and customer collections |
| `Service.PetStoreService.RetrievePetStoreById` | src/main/java/pet/store/service/PetStoreService.java:168-186 | succeeds exactly when the ID is stored, with that store's ID and six fields and no collections; otherwise fails with NotFound |
| `Service.PetStoreService.DeletePetStoreById` | src/main/java/pet/store/service/PetStoreService.java:188-192 | NotFound, changing nothing, on a missing ID; otherwise exactly that store's entry is removed, and employees and customers are untouched |
| `Service.PetStoreService.SaveEmployee` | src/main/java/pet/store/service/PetStoreService.java:65-76 | the store is resolved first (NotFound, even if the employee ID is also bad); then NotFound for an unknown employee and IllegalArgument for another store's employee, each changing nothing; on success the employee's four fields are the input's, its owning store is the resolved store, it is in that store's employee collection, and only that employee and that store changed |
| `Service.PetStoreService.SaveCustomer` | src/main/java/pet/store/service/PetStoreService.java:105-117 | the store is resolved first; an existing customer must already be associated with the store (IllegalArgument otherwise), and a null ID skips that check; failures change nothing; on success the customer's names and e-mail are the input's, the store is among its stores, it is in the store's customer collection, and the new DTO returned repeats the input's names and e-mail with the customer's ID |

## Left out

- `PetStoreController.java`: HTTP routing, status codes and logging. Its only logic is `updatePetStore` writing the path ID into the body, noted above.
- Dependency injection, logging, Lombok's generated `equals`/`hashCode`/`toString`, and the text of exception messages. Errors are the two kinds NotFound and IllegalArgument.
- Transactions: rollback, isolation and the read-only hint. Every check runs before any change, so no rollback is needed to leave the state unchanged on failure.
- What a delete cascades to: that is persistence configuration. The model's `DeletePetStoreById` does not cascade: the employee and customer repositories are left exactly as they were, so their references to the deleted store dangle. That ID is never issued again, so a later store cannot inherit them.
- How the repositories choose IDs, and flush or persistence timing. A new store ID is only "never issued before", and a new employee or customer ID only "not in use".
- The order `findAll` returns: taken to be creation order. A new store is appended and a deleted one is filtered out.
- Java collection semantics of the relationship collections: they are sets of IDs, and only membership after an add is claimed. Object identity and aliasing between entity objects are not modelled, because records are values held in maps.
- 64-bit overflow of `Long` IDs: IDs are unbounded integers.
- A null store ID: `SaveEmployee`, `SaveCustomer`, `RetrievePetStoreById` and `DeletePetStoreById` take a plain `Id`, while the Java methods take a nullable `Long`, whose `findById(null)` throws. The controller always passes a path variable there (`src/main/java/pet/store/controller/PetStoreController.java:48-77`), so that case cannot be reached.
- Null strings: text fields are plain strings. A new entity's fields start as empty strings, and every save overwrites them before they can be seen.
- The nested employee and customer transfer objects inside `PetStoreData` are represented by the IDs they carry. What `PetStoreEmployee` holds beyond the employee's ID and four fields is not part of this model.
