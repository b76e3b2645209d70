/**
 * The business rules of the pet store service over three repositories
 * (pet stores, employees, customers), each a map from identity to record.
 *
 * The first part holds the lookups, the field copies and the repository
 * helpers as functions and methods over those maps; the second part holds
 * the service itself, a class whose fields are the repositories and whose
 * methods are the public operations.
 */
module Service {
  import opened Entities
  import opened CustomerDto

  // ---------------------------------------------------------------------------
  // Repository invariants
  // ---------------------------------------------------------------------------

  /** Every stored pet store carries the identity it is stored under. */
  ghost predicate StoresKeyed(petStores: map<Id, PetStore>) {
    forall id :: id in petStores ==> petStores[id].petStoreId == Some(id)
  }

  /** Every stored employee carries its identity and has an owning store. */
  ghost predicate EmployeesKeyed(employees: map<Id, Employee>) {
    forall id :: id in employees ==> employees[id].employeeId == Some(id) && employees[id].petStore.Some?
  }

  /** Every stored customer carries the identity it is stored under. */
  ghost predicate CustomersKeyed(customers: map<Id, Customer>) {
    forall id :: id in customers ==> customers[id].customerId == Some(id)
  }

  /** Every employee's owning store is an identity that has been issued. */
  ghost predicate EmployeeStoresIssued(employees: map<Id, Employee>, issued: set<Id>) {
    forall id :: id in employees ==>
      match employees[id].petStore
      case None => true
      case Some(s) => s in issued
  }

  /** Every store a customer is associated with is an identity that has been issued. */
  ghost predicate CustomerStoresIssued(customers: map<Id, Customer>, issued: set<Id>) {
    forall id :: id in customers ==> customers[id].petStores <= issued
  }

  predicate NoDuplicates(s: seq<Id>) {
    forall i, j :: 0 <= i < j < |s| ==> s[i] != s[j]
  }

  // ---------------------------------------------------------------------------
  // Identity generation
  // ---------------------------------------------------------------------------

  lemma MemberExists(s: set<Id>)
    requires s != {}
    ensures exists x :: x in s
  {
    if forall x :: x !in s {
      assert false;
    }
  }

  /** A number above every identity in use: the witness that an unused identity exists. */
  ghost function IdBound(keys: set<Id>): (b: Id)
    ensures forall k :: k in keys ==> k < b
  {
    if keys == {} then 0
    else
      MemberExists(keys);
      var x :| x in keys;
      var rest := IdBound(keys - {x});
      assert forall k :: k in keys ==> k == x || k in keys - {x};
      if x < rest then rest else x + 1
  }

  /** A repository's choice of identity for a new record: some identity outside the given set, no particular one. */
  method UnusedId(taken: set<Id>) returns (id: Id)
    ensures id !in taken
  {
    ghost var bound := IdBound(taken);
    assert bound !in taken;
    id :| id !in taken;
  }

  // ---------------------------------------------------------------------------
  // The findAll order
  // ---------------------------------------------------------------------------

  /** The order with one identity filtered out, the rest kept in order. */
  function RemoveId(order: seq<Id>, id: Id): (r: seq<Id>)
    ensures forall x :: x in r <==> x in order && x != id
    ensures NoDuplicates(order) ==> NoDuplicates(r)
  {
    if order == [] then []
    else if order[0] == id then RemoveId(order[1..], id)
    else
      var rest := RemoveId(order[1..], id);
      assert NoDuplicates(order) ==> order[0] !in order[1..] by {
        if NoDuplicates(order) {
          forall k | 0 <= k < |order[1..]| ensures order[1..][k] != order[0] {
            assert order[1..][k] == order[k + 1];
          }
        }
      }
      [order[0]] + rest
  }

  /** Filtering out an identity that was just appended gives back the order before it. */
  lemma {:induction false} RemoveAppended(order: seq<Id>, id: Id)
    requires id !in order
    ensures RemoveId(order + [id], id) == order
  {
    if order == [] {
      assert RemoveId([id], id) == RemoveId([], id);
    } else {
      assert (order + [id])[1..] == order[1..] + [id];
      RemoveAppended(order[1..], id);
    }
  }

  /** Creating a store and then deleting it restores both the store map and the findAll order. */
  lemma CreateThenDeleteRestores(petStores: map<Id, PetStore>, order: seq<Id>, id: Id, created: PetStore)
    requires id !in petStores && id !in order
    ensures petStores[id := created] - {id} == petStores
    ensures RemoveId(order + [id], id) == order
  {
    RemoveAppended(order, id);
  }

  // ---------------------------------------------------------------------------
  // Pet stores
  // ---------------------------------------------------------------------------

  /** The store under an identity, or NotFound. */
  function FindPetStoreById(petStores: map<Id, PetStore>, petStoreId: Id): (r: Result<PetStore>)
    ensures r.Ok? <==> petStoreId in petStores
    ensures r.Ok? ==> r.value == petStores[petStoreId]
    ensures r.Err? ==> r.error == NotFound
  {
    if petStoreId in petStores then Ok(petStores[petStoreId]) else Err(NotFound)
  }

  /** A null identity means a new store; a present one must be found. */
  function FindOrCreatePetStore(petStores: map<Id, PetStore>, petStoreId: Option<Id>): (r: Result<PetStore>)
    ensures r.Err? <==> petStoreId.Some? && petStoreId.value !in petStores
    ensures r.Err? ==> r.error == NotFound
    ensures petStoreId.None? ==> r == Ok(NewPetStore)
    ensures r.Ok? && petStoreId.Some? ==> r.value == petStores[petStoreId.value]
  {
    if petStoreId.None? then Ok(NewPetStore) else FindPetStoreById(petStores, petStoreId.value)
  }

  /** Overwrites the six descriptive fields; identity and both collections stay as they were. */
  function CopyPetStoreFields(petStore: PetStore, petStoreData: PetStoreData): (r: PetStore)
    ensures SameDescription(r, petStoreData)
    ensures r.petStoreId == petStore.petStoreId
    ensures r.employees == petStore.employees && r.customers == petStore.customers
  {
    petStore.(
      petStoreName := petStoreData.petStoreName,
      petStoreAddress := petStoreData.petStoreAddress,
      petStoreCity := petStoreData.petStoreCity,
      petStoreState := petStoreData.petStoreState,
      petStoreZip := petStoreData.petStoreZip,
      petStorePhone := petStoreData.petStorePhone)
  }

  /** The view a single-store read returns, built field by field on an empty transfer object. */
  function StrippedPetStoreData(petStore: PetStore): (d: PetStoreData)
    ensures d.petStoreId == petStore.petStoreId
    ensures SameDescription(petStore, d)
    ensures d.employees == {} && d.customers == {}
  {
    EmptyPetStoreData.(
      petStoreId := petStore.petStoreId,
      petStoreName := petStore.petStoreName,
      petStoreAddress := petStore.petStoreAddress,
      petStoreCity := petStore.petStoreCity,
      petStoreState := petStore.petStoreState,
      petStoreZip := petStore.petStoreZip,
      petStorePhone := petStore.petStorePhone)
  }

  /** The full view with both collections cleared is the single-store view: both reads agree. */
  lemma ClearedViewIsStripped(petStore: PetStore)
    ensures PetStoreDataOf(petStore).(customers := {}).(employees := {}) == StrippedPetStoreData(petStore)
  {
  }

  /** Reading a store back after its fields were copied returns the input's fields with the store's identity. */
  lemma RetrievedAfterCopy(petStore: PetStore, petStoreData: PetStoreData)
    ensures StrippedPetStoreData(CopyPetStoreFields(petStore, petStoreData))
         == petStoreData.(petStoreId := petStore.petStoreId, employees := {}, customers := {})
  {
  }

  // ---------------------------------------------------------------------------
  // Employees
  // ---------------------------------------------------------------------------

  /** An employee identity is acceptable for a store: absent (a new employee) or owned by that store. */
  ghost predicate EmployeeAcceptable(employees: map<Id, Employee>, petStoreId: Id, employeeId: Option<Id>) {
    employeeId.Some? ==> employeeId.value in employees && employees[employeeId.value].petStore == Some(petStoreId)
  }

  /** The employee under an identity, provided it belongs to the given store. */
  function FindEmployeeById(employees: map<Id, Employee>, petStoreId: Id, employeeId: Id): (r: Result<Employee>)
    requires employeeId in employees ==> employees[employeeId].petStore.Some?
    ensures employeeId !in employees ==> r == Err(NotFound)
    ensures employeeId in employees && employees[employeeId].petStore != Some(petStoreId) ==> r == Err(IllegalArgument)
    ensures employeeId in employees && employees[employeeId].petStore == Some(petStoreId) ==> r == Ok(employees[employeeId])
  {
    if employeeId !in employees then Err(NotFound)
    else
      var employee := employees[employeeId];
      if employee.petStore.value != petStoreId then Err(IllegalArgument)
      else Ok(employee)
  }

  /** A null identity means a new employee; a present one must be found and owned by the store. */
  function FindOrCreateEmployee(employees: map<Id, Employee>, petStoreId: Id, employeeId: Option<Id>): (r: Result<Employee>)
    requires match employeeId
               case None => true
               case Some(id) => id in employees ==> employees[id].petStore.Some?
    ensures r.Ok? <==> EmployeeAcceptable(employees, petStoreId, employeeId)
    ensures employeeId.None? ==> r == Ok(NewEmployee)
    ensures employeeId.Some? && employeeId.value !in employees ==> r == Err(NotFound)
    ensures r.Ok? && employeeId.Some? ==> r.value == employees[employeeId.value]
    ensures r.Err? && employeeId.Some? && employeeId.value in employees ==> r.error == IllegalArgument
  {
    match employeeId
    case None => Ok(NewEmployee)
    case Some(id) => FindEmployeeById(employees, petStoreId, id)
  }

  /** Overwrites the four personal fields; identity and owning store stay as they were. */
  function CopyEmployeeFields(employee: Employee, petStoreEmployee: PetStoreEmployee): (r: Employee)
    ensures SameEmployeeDetails(r, petStoreEmployee)
    ensures r.employeeId == employee.employeeId && r.petStore == employee.petStore
  {
    employee.(
      employeeFirstName := petStoreEmployee.employeeFirstName,
      employeeLastName := petStoreEmployee.employeeLastName,
      employeePhone := petStoreEmployee.employeePhone,
      employeeJobTittle := petStoreEmployee.employeeJobTittle)
  }

  /** The transfer object made from an employee after the copy is the input with the employee's identity. */
  lemma EmployeeRoundTrip(employee: Employee, petStoreEmployee: PetStoreEmployee)
    ensures PetStoreEmployeeOf(CopyEmployeeFields(employee, petStoreEmployee))
         == petStoreEmployee.(employeeId := employee.employeeId)
  {
  }

  // ---------------------------------------------------------------------------
  // Customers
  // ---------------------------------------------------------------------------

  /** A customer identity is acceptable for a store: absent (a new customer) or associated with that store. */
  ghost predicate CustomerAcceptable(customers: map<Id, Customer>, petStoreId: Id, customerId: Option<Id>) {
    customerId.Some? ==> customerId.value in customers && petStoreId in customers[customerId.value].petStores
  }

  /** The customer under an identity, provided a scan of its stores finds the given store. */
  method FindCustomerById(customers: map<Id, Customer>, petStoreId: Id, customerId: Id) returns (r: Result<Customer>)
    ensures customerId !in customers ==> r == Err(NotFound)
    ensures customerId in customers && petStoreId !in customers[customerId].petStores ==> r == Err(IllegalArgument)
    ensures customerId in customers && petStoreId in customers[customerId].petStores ==> r == Ok(customers[customerId])
  {
    if customerId !in customers {
      return Err(NotFound);
    }
    var customer := customers[customerId];
    var unvisited := customer.petStores;
    while unvisited != {}
      invariant unvisited <= customer.petStores
      invariant petStoreId in customer.petStores ==> petStoreId in unvisited
      decreases unvisited
    {
      MemberExists(unvisited);
      var petStore :| petStore in unvisited;
      if petStore == petStoreId {
        return Ok(customer);
      }
      unvisited := unvisited - {petStore};
    }
    return Err(IllegalArgument);
  }

  /** A null identity means a new customer; a present one must be found and associated with the store. */
  method FindOrCreateCustomer(customers: map<Id, Customer>, petStoreId: Id, customerId: Option<Id>) returns (r: Result<Customer>)
    ensures r.Ok? <==> CustomerAcceptable(customers, petStoreId, customerId)
    ensures customerId.None? ==> r == Ok(NewCustomer)
    ensures customerId.Some? && customerId.value !in customers ==> r == Err(NotFound)
    ensures r.Ok? && customerId.Some? ==> r.value == customers[customerId.value]
    ensures r.Err? && customerId.Some? && customerId.value in customers ==> r.error == IllegalArgument
  {
    if customerId.None? {
      r := Ok(NewCustomer);
    } else {
      r := FindCustomerById(customers, petStoreId, customerId.value);
    }
  }

  /** Overwrites the names and e-mail from the transfer object; identity and stores stay as they were. */
  function CopyCustomerFields(customer: Customer, petStoreCustomerDTO: PetStoreCustomerDTO): (r: Customer)
    reads petStoreCustomerDTO
    ensures SameCustomerDetails(r, petStoreCustomerDTO)
    ensures r.customerId == customer.customerId && r.petStores == customer.petStores
  {
    customer.(
      customerFirstName := petStoreCustomerDTO.GetCustomerFirstName(),
      customerLastName := petStoreCustomerDTO.GetCustomerLastName(),
      customerEmail := petStoreCustomerDTO.GetCustomerEmail())
  }

  /** Adds a store to the customer's stores; the stores it had are kept and nothing else changes. */
  function AddPetStoreToCustomer(customer: Customer, petStore: PetStore): (r: Customer)
    requires petStore.petStoreId.Some?
    ensures petStore.petStoreId.value in r.petStores
    ensures customer.petStores <= r.petStores
    ensures forall s :: s in r.petStores ==> s in customer.petStores || s == petStore.petStoreId.value
    ensures r == customer.(petStores := r.petStores)
  {
    customer.(petStores := customer.petStores + {petStore.petStoreId.value})
  }

  // ---------------------------------------------------------------------------
  // The service
  // ---------------------------------------------------------------------------

  class PetStoreService {
    var petStores: map<Id, PetStore>
    var employees: map<Id, Employee>
    var customers: map<Id, Customer>
    /** The order in which the pet store repository's findAll lists the stores. */
    var petStoreOrder: seq<Id>
    /**
     * Every pet store identity the repository has handed out, including
     * those of deleted stores: the state of its identity generator, which
     * never hands out an identity twice.
     */
    var issuedPetStoreIds: set<Id>

    ghost predicate Valid()
      reads this
    {
      && StoresKeyed(petStores)
      && EmployeesKeyed(employees)
      && CustomersKeyed(customers)
      && NoDuplicates(petStoreOrder)
      && (forall i :: 0 <= i < |petStoreOrder| ==> petStoreOrder[i] in petStores)
      && (forall id :: id in petStores ==> id in petStoreOrder)
      && petStores.Keys <= issuedPetStoreIds
      && EmployeeStoresIssued(employees, issuedPetStoreIds)
      && CustomerStoresIssued(customers, issuedPetStoreIds)
    }

    /** A service over three empty repositories. */
    constructor ()
      ensures Valid()
      ensures petStores == map[] && employees == map[] && customers == map[] && petStoreOrder == []
      ensures issuedPetStoreIds == {}
    {
      petStores, employees, customers, petStoreOrder := map[], map[], map[], [];
      issuedPetStoreIds := {};
    }

    // --- repository operations ------------------------------------------------

    /** The pet store repository's save: a store without identity gets one never issued before and joins the findAll order. */
    method SavePetStoreRecord(petStore: PetStore) returns (saved: PetStore)
      requires Valid()
      requires match petStore.petStoreId
                 case None => true
                 case Some(id) => id in petStores
      modifies this
      ensures Valid()
      ensures saved.petStoreId.Some? && saved == petStore.(petStoreId := saved.petStoreId)
      ensures petStores == old(petStores)[saved.petStoreId.value := saved]
      ensures petStore.petStoreId.Some? ==>
                saved == petStore && petStoreOrder == old(petStoreOrder)
                && issuedPetStoreIds == old(issuedPetStoreIds)
      ensures petStore.petStoreId.None? ==>
                saved.petStoreId.value !in old(issuedPetStoreIds)
                && issuedPetStoreIds == old(issuedPetStoreIds) + {saved.petStoreId.value}
                && petStoreOrder == old(petStoreOrder) + [saved.petStoreId.value]
      ensures employees == old(employees) && customers == old(customers)
    {
      if petStore.petStoreId.Some? {
        saved := petStore;
      } else {
        var id := UnusedId(issuedPetStoreIds);
        saved := petStore.(petStoreId := Some(id));
        petStoreOrder := petStoreOrder + [id];
        issuedPetStoreIds := issuedPetStoreIds + {id};
      }
      petStores := petStores[saved.petStoreId.value := saved];
    }

    /** The pet store repository's delete: removes the store's entry and its place in the findAll order. */
    method DeletePetStoreRecord(petStore: PetStore)
      requires Valid()
      requires petStore.petStoreId.Some? && petStore.petStoreId.value in petStores
      modifies this
      ensures Valid()
      ensures petStores == old(petStores) - {petStore.petStoreId.value}
      ensures petStoreOrder == RemoveId(old(petStoreOrder), petStore.petStoreId.value)
      ensures employees == old(employees) && customers == old(customers)
      ensures issuedPetStoreIds == old(issuedPetStoreIds)
    {
      var id := petStore.petStoreId.value;
      petStores := petStores - {id};
      petStoreOrder := RemoveId(petStoreOrder, id);
      forall i | 0 <= i < |petStoreOrder| ensures petStoreOrder[i] in petStores {
        assert petStoreOrder[i] in petStoreOrder;
      }
    }

    /** The pet store repository's findAll: every stored store, once each, in findAll order. */
    method FindAllPetStores() returns (all: seq<PetStore>)
      requires Valid()
      ensures |all| == |petStoreOrder|
      ensures forall i :: 0 <= i < |all| ==> all[i] == petStores[petStoreOrder[i]]
    {
      var order, stores := petStoreOrder, petStores;
      all := seq(|order|, i requires 0 <= i < |order| && order[i] in stores => stores[order[i]]);
    }

    /** The employee repository's save: an employee without identity gets an unused one. */
    method SaveEmployeeRecord(employee: Employee) returns (saved: Employee)
      requires Valid()
      requires match employee.employeeId
                 case None => true
                 case Some(id) => id in employees
      requires match employee.petStore
                 case None => false
                 case Some(s) => s in issuedPetStoreIds
      modifies this
      ensures Valid()
      ensures saved.employeeId.Some? && saved == employee.(employeeId := saved.employeeId)
      ensures employees == old(employees)[saved.employeeId.value := saved]
      ensures employee.employeeId.Some? ==> saved == employee
      ensures employee.employeeId.None? ==> saved.employeeId.value !in old(employees)
      ensures petStores == old(petStores) && customers == old(customers) && petStoreOrder == old(petStoreOrder)
      ensures issuedPetStoreIds == old(issuedPetStoreIds)
    {
      if employee.employeeId.Some? {
        saved := employee;
      } else {
        var id := UnusedId(employees.Keys);
        saved := employee.(employeeId := Some(id));
      }
      employees := employees[saved.employeeId.value := saved];
    }

    /** The customer repository's save: a customer without identity gets an unused one. */
    method SaveCustomerRecord(customer: Customer) returns (saved: Customer)
      requires Valid()
      requires match customer.customerId
                 case None => true
                 case Some(id) => id in customers
      requires customer.petStores <= issuedPetStoreIds
      modifies this
      ensures Valid()
      ensures saved.customerId.Some? && saved == customer.(customerId := saved.customerId)
      ensures customers == old(customers)[saved.customerId.value := saved]
      ensures customer.customerId.Some? ==> saved == customer
      ensures customer.customerId.None? ==> saved.customerId.value !in old(customers)
      ensures petStores == old(petStores) && employees == old(employees) && petStoreOrder == old(petStoreOrder)
      ensures issuedPetStoreIds == old(issuedPetStoreIds)
    {
      if customer.customerId.Some? {
        saved := customer;
      } else {
        var id := UnusedId(customers.Keys);
        saved := customer.(customerId := Some(id));
      }
      customers := customers[saved.customerId.value := saved];
    }

    // --- pet stores -------------------------------------------------------------

    /**
     * Creates a store (null identity) or updates an existing one: the six
     * descriptive fields are overwritten and nothing else about the store
     * changes. An identity that is not stored fails with NotFound.
     */
    method SavePetStore(petStoreData: PetStoreData) returns (r: Result<PetStoreData>)
      requires Valid()
      modifies this
      ensures Valid()
      ensures employees == old(employees) && customers == old(customers)
      ensures r.Err? <==> petStoreData.petStoreId.Some? && petStoreData.petStoreId.value !in old(petStores)
      ensures r.Err? ==> r.error == NotFound && petStores == old(petStores) && petStoreOrder == old(petStoreOrder)
      ensures r.Err? || petStoreData.petStoreId.Some? ==> issuedPetStoreIds == old(issuedPetStoreIds)
      ensures r.Ok? ==> r.value.petStoreId.Some?
      ensures r.Ok? && r.value.petStoreId.Some? ==>
                var id := r.value.petStoreId.value;
                && id in petStores
                && r.value == PetStoreDataOf(petStores[id])
                && SameDescription(petStores[id], petStoreData)
                && petStores == old(petStores)[id := petStores[id]]
      ensures r.Ok? && r.value.petStoreId.Some? && petStoreData.petStoreId.None? ==>
                var id := r.value.petStoreId.value;
                && id !in old(issuedPetStoreIds)
                && issuedPetStoreIds == old(issuedPetStoreIds) + {id}
                && (forall e :: e in employees ==> employees[e].petStore != Some(id))
                && (forall c :: c in customers ==> id !in customers[c].petStores)
                && petStores[id].employees == {} && petStores[id].customers == {}
                && petStoreOrder == old(petStoreOrder) + [id]
      ensures r.Ok? && r.value.petStoreId.Some? && petStoreData.petStoreId.Some? ==>
                var id := r.value.petStoreId.value;
                && id == petStoreData.petStoreId.value
                && petStores[id].employees == old(petStores)[id].employees
                && petStores[id].customers == old(petStores)[id].customers
                && petStoreOrder == old(petStoreOrder)
    {
      var found := FindOrCreatePetStore(petStores, petStoreData.petStoreId);
      if found.Err? {
        return Err(found.error);
      }
      var petStore := CopyPetStoreFields(found.value, petStoreData);
      var saved := SavePetStoreRecord(petStore);
      r := Ok(PetStoreDataOf(saved));
    }

    /** Every store's descriptive fields, in findAll order, with both collections cleared. */
    method RetrieveAllPetStores() returns (result: seq<PetStoreData>)
      requires Valid()
      ensures |result| == |petStoreOrder|
      ensures forall i :: 0 <= i < |result| ==> result[i] == StrippedPetStoreData(petStores[petStoreOrder[i]])
      ensures forall i :: 0 <= i < |result| ==> result[i].petStoreId == Some(petStoreOrder[i])
      ensures forall i :: 0 <= i < |result| ==> result[i].employees == {} && result[i].customers == {}
    {
      var all := FindAllPetStores();
      result := [];
      for i := 0 to |all|
        invariant |result| == i
        invariant forall k :: 0 <= k < i ==> result[k] == StrippedPetStoreData(all[k])
      {
        var psd := PetStoreDataOf(all[i]);
        psd := psd.(customers := {});
        psd := psd.(employees := {});
        ClearedViewIsStripped(all[i]);
        result := result + [psd];
      }
      forall i | 0 <= i < |result| ensures result[i].petStoreId == Some(petStoreOrder[i]) {
        var id := petStoreOrder[i];
        assert petStores[id].petStoreId == Some(id);
      }
    }

    /** One store's identity and descriptive fields, without its collections; NotFound if absent. */
    method RetrievePetStoreById(petStoreId: Id) returns (r: Result<PetStoreData>)
      requires Valid()
      ensures r.Ok? <==> petStoreId in petStores
      ensures r.Err? ==> r.error == NotFound
      ensures r.Ok? ==> r.value == StrippedPetStoreData(petStores[petStoreId])
      ensures r.Ok? ==> r.value.petStoreId == Some(petStoreId)
    {
      var found := FindPetStoreById(petStores, petStoreId);
      if found.Err? {
        return Err(found.error);
      }
      var petStore := found.value;
      var petStoreData := EmptyPetStoreData;
      petStoreData := petStoreData.(petStoreId := petStore.petStoreId);
      petStoreData := petStoreData.(petStoreName := petStore.petStoreName);
      petStoreData := petStoreData.(petStoreAddress := petStore.petStoreAddress);
      petStoreData := petStoreData.(petStoreCity := petStore.petStoreCity);
      petStoreData := petStoreData.(petStoreState := petStore.petStoreState);
      petStoreData := petStoreData.(petStoreZip := petStore.petStoreZip);
      petStoreData := petStoreData.(petStorePhone := petStore.petStorePhone);
      r := Ok(petStoreData);
    }

    /** Removes exactly the store's entry; NotFound, with nothing changed, if absent. */
    method DeletePetStoreById(petStoreId: Id) returns (r: Result<()>)
      requires Valid()
      modifies this
      ensures Valid()
      ensures employees == old(employees) && customers == old(customers)
      ensures issuedPetStoreIds == old(issuedPetStoreIds)
      ensures petStoreId !in old(petStores) ==>
                r == Err(NotFound) && petStores == old(petStores) && petStoreOrder == old(petStoreOrder)
      ensures petStoreId in old(petStores) ==>
                && r == Ok(())
                && petStores == old(petStores) - {petStoreId}
                && petStoreOrder == RemoveId(old(petStoreOrder), petStoreId)
    {
      var found := FindPetStoreById(petStores, petStoreId);
      if found.Err? {
        return Err(found.error);
      }
      DeletePetStoreRecord(found.value);
      r := Ok(());
    }

    // --- employees --------------------------------------------------------------

    /**
     * Resolves the store first, then the employee; on success the employee's
     * four fields are the input's, its owning store is the resolved store and
     * it is in that store's employee collection. Failures change nothing.
     */
    method SaveEmployee(petStoreId: Id, petStoreEmployee: PetStoreEmployee) returns (r: Result<PetStoreEmployee>)
      requires Valid()
      modifies this
      ensures Valid()
      ensures customers == old(customers) && petStoreOrder == old(petStoreOrder)
      ensures issuedPetStoreIds == old(issuedPetStoreIds)
      ensures r.Err? ==> petStores == old(petStores) && employees == old(employees)
      ensures petStoreId !in old(petStores) ==> r == Err(NotFound)
      ensures petStoreId in old(petStores) && petStoreEmployee.employeeId.Some? ==>
                var employeeId := petStoreEmployee.employeeId.value;
                && (employeeId !in old(employees) ==> r == Err(NotFound))
                && (employeeId in old(employees) && old(employees)[employeeId].petStore != Some(petStoreId) ==>
                      r == Err(IllegalArgument))
      ensures r.Ok? <==> petStoreId in old(petStores) && EmployeeAcceptable(old(employees), petStoreId, petStoreEmployee.employeeId)
      ensures r.Ok? ==> r.value.employeeId.Some?
      ensures r.Ok? && r.value.employeeId.Some? ==>
                var employeeId := r.value.employeeId.value;
                && employeeId in employees
                && r.value == PetStoreEmployeeOf(employees[employeeId])
                && SameEmployeeDetails(employees[employeeId], petStoreEmployee)
                && employees[employeeId].petStore == Some(petStoreId)
                && employees == old(employees)[employeeId := employees[employeeId]]
                && (petStoreEmployee.employeeId.None? ==> employeeId !in old(employees))
                && (petStoreEmployee.employeeId.Some? ==> employeeId == petStoreEmployee.employeeId.value)
                && petStoreId in old(petStores)
                && petStores == old(petStores)[petStoreId := old(petStores)[petStoreId].(
                                  employees := old(petStores)[petStoreId].employees + {employeeId})]
                && employeeId in petStores[petStoreId].employees
    {
      var store := FindPetStoreById(petStores, petStoreId);
      if store.Err? {
        return Err(store.error);
      }
      var petStore := store.value;
      var found := FindOrCreateEmployee(employees, petStoreId, petStoreEmployee.employeeId);
      if found.Err? {
        return Err(found.error);
      }
      var employee := CopyEmployeeFields(found.value, petStoreEmployee);
      employee := employee.(petStore := petStore.petStoreId);
      var saved := SaveEmployeeRecord(employee);
      petStore := petStore.(employees := petStore.employees + {saved.employeeId.value});
      petStores := petStores[petStoreId := petStore];
      r := Ok(PetStoreEmployeeOf(saved));
    }

    // --- customers --------------------------------------------------------------

    /**
     * Resolves the store first, then the customer; on success the customer's
     * names and e-mail are the input's, the store is among the customer's
     * stores and the customer is in the store's customer collection. The
     * returned transfer object is new and repeats the input's names and
     * e-mail with the customer's identity. Failures change nothing.
     */
    method SaveCustomer(petStoreId: Id, petStoreCustomerDTO: PetStoreCustomerDTO) returns (r: Result<PetStoreCustomerDTO>)
      requires Valid()
      modifies this
      ensures Valid()
      ensures employees == old(employees) && petStoreOrder == old(petStoreOrder)
      ensures issuedPetStoreIds == old(issuedPetStoreIds)
      ensures r.Err? ==> petStores == old(petStores) && customers == old(customers)
      ensures petStoreId !in old(petStores) ==> r == Err(NotFound)
      ensures petStoreId in old(petStores) && petStoreCustomerDTO.customerId.Some? ==>
                var customerId := petStoreCustomerDTO.customerId.value;
                && (customerId !in old(customers) ==> r == Err(NotFound))
                && (customerId in old(customers) && petStoreId !in old(customers)[customerId].petStores ==>
                      r == Err(IllegalArgument))
      ensures r.Ok? <==> petStoreId in old(petStores) && CustomerAcceptable(old(customers), petStoreId, petStoreCustomerDTO.customerId)
      ensures r.Ok? ==> fresh(r.value) && r.value.customerId.Some?
      ensures r.Ok? && r.value.customerId.Some? ==>
                var customerId := r.value.customerId.value;
                && customerId in customers
                && SameCustomerDetails(customers[customerId], petStoreCustomerDTO)
                && SameCustomerDetails(customers[customerId], r.value)
                && petStoreId in customers[customerId].petStores
                && customers == old(customers)[customerId := customers[customerId]]
                && (petStoreCustomerDTO.customerId.None? ==>
                      customerId !in old(customers) && customers[customerId].petStores == {petStoreId})
                && (petStoreCustomerDTO.customerId.Some? ==>
                      customerId == petStoreCustomerDTO.customerId.value
                      && customers[customerId].petStores == old(customers)[customerId].petStores)
                && petStoreId in old(petStores)
                && petStores == old(petStores)[petStoreId := old(petStores)[petStoreId].(
                                  customers := old(petStores)[petStoreId].customers + {customerId})]
                && customerId in petStores[petStoreId].customers
    {
      var store := FindPetStoreById(petStores, petStoreId);
      if store.Err? {
        return Err(store.error);
      }
      var petStore := store.value;
      var found := FindOrCreateCustomer(customers, petStoreId, petStoreCustomerDTO.GetCustomerId());
      if found.Err? {
        return Err(found.error);
      }
      match petStoreCustomerDTO.GetCustomerId() {
        case None =>
        case Some(id) => assert found.value == customers[id] && customers[id].customerId == Some(id);
      }
      var customer := CopyCustomerFields(found.value, petStoreCustomerDTO);
      customer := AddPetStoreToCustomer(customer, petStore);
      var saved := SaveCustomerRecord(customer);
      petStore := petStore.(customers := petStore.customers + {saved.customerId.value});
      petStores := petStores[petStoreId := petStore];
      var dto := new PetStoreCustomerDTO.FromCustomer(saved);
      r := Ok(dto);
    }
  }
}
