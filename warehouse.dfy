/** The request handlers of the warehouse service, as operations on a store
    holding the four collections. Requests arrive already parsed: a body is a
    record of the keys a handler reads, an identifier is already valid, and
    the limit query parameter is already converted to an integer (or absent).
    The clock and the date parser are parameters. */
module Warehouse {
  import opened Wrappers
  import opened Collection
  import opened Models

  /** One key of a JSON request body: missing, explicitly null, or a value. */
  datatype Field<T> = Absent | Null | Given(value: T)
  {
    /** The value data[key] puts into a document; a missing key raises
        before this is reached. */
    function Stored(): (r: Option<T>)
      requires !Absent?
    {
      if Given? then Some(value) else None
    }

    /** data.get(key, current): the body's value when the key is present,
        the current field value when it is not. */
    function Or(current: Option<T>): (r: Option<T>)
    {
      match this
      case Absent => current
      case Null => None
      case Given(v) => Some(v)
    }
  }

  datatype ProductBody = ProductBody(name: Field<string>, price: Field<Float>, amount: Field<int>)

  datatype CustomerBody = CustomerBody(
    firstName: Field<string>,
    lastName: Field<string>,
    street: Field<string>,
    postalCode: Field<string>,
    age: Field<int>)

  /** employee_since arrives as text in the form year-month-day. */
  datatype StaffBody = StaffBody(
    firstName: Field<string>,
    lastName: Field<string>,
    employeeSince: Field<string>,
    age: Field<int>)

  datatype OrderBody = OrderBody(productId: Field<Id>, customerId: Field<Id>, staffId: Field<Id>)

  /** What a handler answers. Ok carries 200 or 201 and one document; Listing
      is a 200 with a JSON array; NoContent is the empty 204; NotFound is a
      404 with its error message; Failed is an exception the handler does not
      catch (a missing key, an unparsable date, a failed save, an integer
      outside 64 bits). */
  datatype Response<R> =
    | Ok(status: int, doc: Doc<R>)
    | Listing(docs: seq<Doc<R>>)
    | NoContent
    | NotFound(error: string)
    | Failed

  const ProductNotFound := "Product not found"
  const CustomerNotFound := "Customer not found"
  const StaffNotFound := "Staff member not found"
  const OrdersNotFound := "Orders not found for the given product"
  const OrderNotFound := "Order not found for the given product and customer"

  // ---------------------------------------------------------------------
  // Building documents from a request body

  /** The Product a create request builds; None when the body lacks a key. */
  function ProductDraft(body: ProductBody, createdAt: DateTime, updatedAt: DateTime): (r: Option<Product>)
    ensures r.Some? <==> !body.name.Absent? && !body.price.Absent? && !body.amount.Absent?
    ensures r.Some? ==> (ProductComplete(r.value) <==> body.name.Given? && body.price.Given? && body.amount.Given?)
    ensures r.Some? && ProductComplete(r.value) ==>
              r.value == Product(Some(body.name.value), Some(body.price.value), Some(body.amount.value),
                                 Some(createdAt), Some(updatedAt))
  {
    if body.name.Absent? || body.price.Absent? || body.amount.Absent? then None
    else Some(Product(body.name.Stored(), body.price.Stored(), body.amount.Stored(),
                      Some(createdAt), Some(updatedAt)))
  }

  /** The Customer a create request builds; None when the body lacks a key. */
  function CustomerDraft(body: CustomerBody, createdAt: DateTime, updatedAt: DateTime): (r: Option<Customer>)
    ensures r.Some? <==> && !body.firstName.Absent? && !body.lastName.Absent? && !body.street.Absent?
                         && !body.postalCode.Absent? && !body.age.Absent?
    ensures r.Some? ==> (CustomerComplete(r.value) <==>
                           && body.firstName.Given? && body.lastName.Given? && body.street.Given?
                           && body.postalCode.Given? && body.age.Given?)
    ensures r.Some? && CustomerComplete(r.value) ==>
              r.value == Customer(Some(body.firstName.value), Some(body.lastName.value), Some(body.street.value),
                                  Some(body.postalCode.value), Some(body.age.value),
                                  Some(createdAt), Some(updatedAt))
  {
    if || body.firstName.Absent? || body.lastName.Absent? || body.street.Absent?
       || body.postalCode.Absent? || body.age.Absent?
    then None
    else Some(Customer(body.firstName.Stored(), body.lastName.Stored(), body.street.Stored(),
                       body.postalCode.Stored(), body.age.Stored(), Some(createdAt), Some(updatedAt)))
  }

  /** The Staff a create request builds; None when the body lacks a key or
      employee_since is null or not a date parseDate accepts. */
  function StaffDraft(body: StaffBody, parseDate: string -> Option<DateTime>,
                      createdAt: DateTime, updatedAt: DateTime): (r: Option<Staff>)
    ensures r.Some? <==> && !body.firstName.Absent? && !body.lastName.Absent? && !body.age.Absent?
                         && body.employeeSince.Given? && parseDate(body.employeeSince.value).Some?
    ensures r.Some? ==> r.value.employeeSince == parseDate(body.employeeSince.value)
    ensures r.Some? ==> (StaffComplete(r.value) <==> body.firstName.Given? && body.lastName.Given? && body.age.Given?)
    ensures r.Some? && StaffComplete(r.value) ==>
              r.value == Staff(Some(body.firstName.value), Some(body.lastName.value),
                               parseDate(body.employeeSince.value), Some(body.age.value),
                               Some(createdAt), Some(updatedAt))
  {
    if body.firstName.Absent? || body.lastName.Absent? || !body.employeeSince.Given? then None
    else
      var since := parseDate(body.employeeSince.value);
      if since.None? || body.age.Absent? then None
      else Some(Staff(body.firstName.Stored(), body.lastName.Stored(), since, body.age.Stored(),
                      Some(createdAt), Some(updatedAt)))
  }

  /** A reference an order body names, resolved in its collection: the
      identifier when a document has it, None when the value is null or no
      document has it (a null becomes a freshly generated identifier, which no
      document has). */
  function Resolve<R>(docs: seq<Doc<R>>, ref: Field<Id>): (r: Option<Id>)
    requires !ref.Absent?
    ensures r.Some? <==> ref.Given? && HasId(docs, ref.value)
    ensures r.Some? ==> r.value == ref.value
  {
    if ref.Null? then None
    else match Lookup(docs, ref.value)
      case None => None
      case Some(d) => Some(d.id)
  }

  // ---------------------------------------------------------------------
  // Partial updates

  /** A product update: price and amount take the body's value when the key
      is present, updated_at is always refreshed, and nothing else changes. */
  function PatchProduct(p: Product, body: ProductBody, now: DateTime): (q: Product)
    ensures q.(price := p.price, amount := p.amount, updatedAt := p.updatedAt) == p
    ensures body.price.Absent? ==> q.price == p.price
    ensures body.price.Given? ==> q.price == Some(body.price.value)
    ensures body.price.Null? ==> q.price == None
    ensures body.amount.Absent? ==> q.amount == p.amount
    ensures body.amount.Given? ==> q.amount == Some(body.amount.value)
    ensures body.amount.Null? ==> q.amount == None
    ensures q.updatedAt == Some(now)
    ensures body.price.Absent? && body.amount.Absent? ==> q == p.(updatedAt := Some(now))
    ensures ProductComplete(p) && !body.price.Null? && !body.amount.Null? ==> ProductComplete(q)
    ensures ProductEncodable(q) <==> if body.amount.Given? then FitsInt64(body.amount.value) else
                                     (body.amount.Null? || ProductEncodable(p))
  {
    p.(price := body.price.Or(p.price), amount := body.amount.Or(p.amount), updatedAt := Some(now))
  }

  /** A customer update: only age may take the body's value; updated_at is
      always refreshed. */
  function PatchCustomer(c: Customer, body: CustomerBody, now: DateTime): (q: Customer)
    ensures q.(age := c.age, updatedAt := c.updatedAt) == c
    ensures body.age.Absent? ==> q.age == c.age
    ensures body.age.Given? ==> q.age == Some(body.age.value)
    ensures body.age.Null? ==> q.age == None
    ensures q.updatedAt == Some(now)
    ensures body.age.Absent? ==> q == c.(updatedAt := Some(now))
    ensures CustomerComplete(c) && !body.age.Null? ==> CustomerComplete(q)
    ensures CustomerEncodable(q) <==> if body.age.Given? then FitsInt64(body.age.value) else
                                      (body.age.Null? || CustomerEncodable(c))
  {
    c.(age := body.age.Or(c.age), updatedAt := Some(now))
  }

  /** A staff update: only last_name and age may take the body's value;
      updated_at is always refreshed. */
  function PatchStaff(s: Staff, body: StaffBody, now: DateTime): (q: Staff)
    ensures q.(lastName := s.lastName, age := s.age, updatedAt := s.updatedAt) == s
    ensures body.lastName.Absent? ==> q.lastName == s.lastName
    ensures body.lastName.Given? ==> q.lastName == Some(body.lastName.value)
    ensures body.lastName.Null? ==> q.lastName == None
    ensures body.age.Absent? ==> q.age == s.age
    ensures body.age.Given? ==> q.age == Some(body.age.value)
    ensures body.age.Null? ==> q.age == None
    ensures q.updatedAt == Some(now)
    ensures body.lastName.Absent? && body.age.Absent? ==> q == s.(updatedAt := Some(now))
    ensures StaffComplete(s) && !body.lastName.Null? && !body.age.Null? ==> StaffComplete(q)
    ensures StaffEncodable(q) <==> if body.age.Given? then FitsInt64(body.age.value) else
                                   (body.age.Null? || StaffEncodable(s))
  {
    s.(lastName := body.lastName.Or(s.lastName), age := body.age.Or(s.age), updatedAt := Some(now))
  }

  // ---------------------------------------------------------------------
  // Order queries

  predicate OrderMatches(o: Doc<Order>, productId: Id, customerId: Id)
  {
    o.record.product == Some(productId) && o.record.customer == Some(customerId)
  }

  /** Order.objects(product_id=...): the orders referencing the product, in
      store order. */
  function OrdersOfProduct(orders: seq<Doc<Order>>, productId: Id): (r: seq<Doc<Order>>)
    ensures forall o :: o in r ==> o in orders && o.record.product == Some(productId)
    ensures forall i :: 0 <= i < |orders| && orders[i].record.product == Some(productId) ==> orders[i] in r
    ensures IsSubsequence(r, orders)
    ensures r == [] <==> forall i :: 0 <= i < |orders| ==> orders[i].record.product != Some(productId)
    ensures forall o :: o in orders ==>
              multiset(r)[o] == if o.record.product == Some(productId) then multiset(orders)[o] else 0
  {
    var refers := (o: Doc<Order>) => o.record.product == Some(productId);
    var r := Where(orders, refers);
    assert forall o :: o in orders ==>
             multiset(r)[o] == if o.record.product == Some(productId) then multiset(orders)[o] else 0 by {
      forall o | o in orders
        ensures multiset(r)[o] == if o.record.product == Some(productId) then multiset(orders)[o] else 0
      {
        WhereCounts(orders, refers, o);
      }
    }
    r
  }

  /** The position of the first order, in store order, referencing both the
      product and the customer. */
  function FirstOrderOf(orders: seq<Doc<Order>>, productId: Id, customerId: Id): (r: Option<nat>)
    ensures r.Some? ==> r.value < |orders| && OrderMatches(orders[r.value], productId, customerId)
    ensures r.Some? ==> forall j :: 0 <= j < r.value ==> !OrderMatches(orders[j], productId, customerId)
    ensures r.None? <==> forall j :: 0 <= j < |orders| ==> !OrderMatches(orders[j], productId, customerId)
  {
    FirstWhere(orders, (o: Doc<Order>) => OrderMatches(o, productId, customerId))
  }

  // ---------------------------------------------------------------------
  // The store and its handlers

  class Store {
    var products: seq<Doc<Product>>
    var customers: seq<Doc<Customer>>
    var staff: seq<Doc<Staff>>
    var orders: seq<Doc<Order>>
    /** The next identifier the store hands out; every stored identifier is
        below it. */
    var nextId: Id

    /** Identifiers are unique within each collection and fresh ones are
        available; every stored integer fits in 64 bits; every stored order
        references all three documents. */
    ghost predicate Valid()
      reads this
    {
      && IdsBelow(products, nextId) && UniqueIds(products)
      && IdsBelow(customers, nextId) && UniqueIds(customers)
      && IdsBelow(staff, nextId) && UniqueIds(staff)
      && IdsBelow(orders, nextId) && UniqueIds(orders)
      && (forall i :: 0 <= i < |products| ==> ProductEncodable(products[i].record))
      && (forall i :: 0 <= i < |customers| ==> CustomerEncodable(customers[i].record))
      && (forall i :: 0 <= i < |staff| ==> StaffEncodable(staff[i].record))
      && forall i :: 0 <= i < |orders| ==> OrderComplete(orders[i].record)
    }

    constructor ()
      ensures Valid()
      ensures products == [] && customers == [] && staff == [] && orders == []
    {
      products, customers, staff, orders := [], [], [], [];
      nextId := 0;
    }

    // --- Products ---

    /** GET /products */
    method ListProducts(limit: Option<int>) returns (r: Response<Product>)
      requires LimitOk(limit)
      ensures r.Listing?
      ensures limit.None? ==> r.docs == products
      ensures limit.Some? ==> r.docs == products[..Min(limit.value, |products|)]
    {
      var cursor := ApplyLimit(products, limit);
      r := Listing(cursor);
    }

    /** POST /products */
    method CreateProduct(body: ProductBody, createdAt: DateTime, updatedAt: DateTime) returns (r: Response<Product>)
      requires Valid()
      modifies this
      ensures Valid()
      ensures r.Ok? || r.Failed?
      ensures r.Ok? <==> body.name.Given? && body.price.Given? && body.amount.Given? && FitsInt64(body.amount.value)
      ensures r.Failed? ==> products == old(products) && nextId == old(nextId)
      ensures r.Ok? ==> r.status == 201 && r.doc.id == old(nextId) && !HasId(old(products), r.doc.id)
      ensures r.Ok? ==> r.doc.record == Product(Some(body.name.value), Some(body.price.value),
                                                Some(body.amount.value), Some(createdAt), Some(updatedAt))
      ensures r.Ok? ==> products == old(products) + [r.doc] && nextId == old(nextId) + 1
      ensures r.Ok? ==> GetProduct(r.doc.id) == Ok(200, r.doc)
      ensures forall other :: (r.Ok? ==> other != r.doc.id) ==> GetProduct(other) == old(GetProduct(other))
      ensures customers == old(customers) && staff == old(staff) && orders == old(orders)
    {
      var draft := ProductDraft(body, createdAt, updatedAt);
      if draft.None? || !ProductComplete(draft.value) || !ProductEncodable(draft.value) {
        return Failed;
      }
      var doc := Doc(nextId, draft.value);
      assert !HasId(products, nextId);
      AppendFresh(products, doc);
      products := products + [doc];
      nextId := nextId + 1;
      r := Ok(201, doc);
    }

    /** GET /products/{id} */
    function GetProduct(id: Id): (r: Response<Product>)
      reads this
      ensures r.Ok? || r.NotFound?
      ensures r.NotFound? <==> !HasId(products, id)
      ensures r.NotFound? ==> r.error == ProductNotFound
      ensures r.Ok? ==> r.status == 200 && r.doc.id == id && r.doc in products
    {
      match Lookup(products, id)
      case None => NotFound(ProductNotFound)
      case Some(d) => Ok(200, d)
    }

    /** PUT /products/{id} */
    method UpdateProduct(id: Id, body: ProductBody, now: DateTime) returns (r: Response<Product>)
      requires Valid()
      modifies this
      ensures Valid()
      ensures r.Ok? || r.NotFound? || r.Failed?
      ensures r.NotFound? <==> !HasId(old(products), id)
      ensures r.NotFound? ==> r.error == ProductNotFound && products == old(products)
      ensures r.Failed? <==> HasId(old(products), id) && body.amount.Given? && !FitsInt64(body.amount.value)
      ensures r.Failed? ==> products == old(products)
      ensures r.Ok? ==> r.status == 200 && r.doc.id == id
      ensures r.Ok? ==> var i := IndexOf(old(products), id).value;
                        && r.doc.record == PatchProduct(old(products)[i].record, body, now)
                        && products == old(products)[i := r.doc]
      ensures r.Ok? ==> GetProduct(id) == r
      ensures forall other :: other != id ==> GetProduct(other) == old(GetProduct(other))
      ensures customers == old(customers) && staff == old(staff) && orders == old(orders)
      ensures nextId == old(nextId)
    {
      var found := IndexOf(products, id);
      if found.None? {
        return NotFound(ProductNotFound);
      }
      var i := found.value;
      var patched := PatchProduct(products[i].record, body, now);
      if !ProductEncodable(patched) {
        return Failed;
      }
      var doc := Doc(id, patched);
      ReplaceAt(products, i, doc.record);
      products := products[i := doc];
      r := Ok(200, doc);
    }

    /** DELETE /products/{id} */
    method DeleteProduct(id: Id) returns (r: Response<Product>)
      requires Valid()
      modifies this
      ensures Valid()
      ensures r.NoContent? || r.NotFound?
      ensures r.NotFound? <==> !HasId(old(products), id)
      ensures r.NotFound? ==> r.error == ProductNotFound && products == old(products)
      ensures r.NoContent? ==> var i := IndexOf(old(products), id).value;
                               products == old(products)[..i] + old(products)[i + 1..]
      ensures GetProduct(id) == NotFound(ProductNotFound)
      ensures forall other :: other != id ==> GetProduct(other) == old(GetProduct(other))
      ensures customers == old(customers) && staff == old(staff) && orders == old(orders)
      ensures nextId == old(nextId)
    {
      var found := IndexOf(products, id);
      if found.None? {
        return NotFound(ProductNotFound);
      }
      var i := found.value;
      RemoveAt(products, i);
      products := products[..i] + products[i + 1..];
      r := NoContent;
    }

    // --- Customers ---

    /** GET /customers */
    method ListCustomers(limit: Option<int>) returns (r: Response<Customer>)
      requires LimitOk(limit)
      ensures r.Listing?
      ensures limit.None? ==> r.docs == customers
      ensures limit.Some? ==> r.docs == customers[..Min(limit.value, |customers|)]
    {
      var cursor := ApplyLimit(customers, limit);
      r := Listing(cursor);
    }

    /** POST /customers */
    method CreateCustomer(body: CustomerBody, createdAt: DateTime, updatedAt: DateTime) returns (r: Response<Customer>)
      requires Valid()
      modifies this
      ensures Valid()
      ensures r.Ok? || r.Failed?
      ensures r.Ok? <==> (&& body.firstName.Given? && body.lastName.Given? && body.street.Given?
                          && body.postalCode.Given? && body.age.Given? && FitsInt64(body.age.value))
      ensures r.Failed? ==> customers == old(customers) && nextId == old(nextId)
      ensures r.Ok? ==> r.status == 201 && r.doc.id == old(nextId) && !HasId(old(customers), r.doc.id)
      ensures r.Ok? ==> r.doc.record == Customer(Some(body.firstName.value), Some(body.lastName.value),
                                                 Some(body.street.value), Some(body.postalCode.value),
                                                 Some(body.age.value), Some(createdAt), Some(updatedAt))
      ensures r.Ok? ==> customers == old(customers) + [r.doc] && nextId == old(nextId) + 1
      ensures r.Ok? ==> GetCustomer(r.doc.id) == Ok(200, r.doc)
      ensures forall other :: (r.Ok? ==> other != r.doc.id) ==> GetCustomer(other) == old(GetCustomer(other))
      ensures products == old(products) && staff == old(staff) && orders == old(orders)
    {
      var draft := CustomerDraft(body, createdAt, updatedAt);
      if draft.None? || !CustomerComplete(draft.value) || !CustomerEncodable(draft.value) {
        return Failed;
      }
      var doc := Doc(nextId, draft.value);
      assert !HasId(customers, nextId);
      AppendFresh(customers, doc);
      customers := customers + [doc];
      nextId := nextId + 1;
      r := Ok(201, doc);
    }

    /** GET /customers/{id} */
    function GetCustomer(id: Id): (r: Response<Customer>)
      reads this
      ensures r.Ok? || r.NotFound?
      ensures r.NotFound? <==> !HasId(customers, id)
      ensures r.NotFound? ==> r.error == CustomerNotFound
      ensures r.Ok? ==> r.status == 200 && r.doc.id == id && r.doc in customers
    {
      match Lookup(customers, id)
      case None => NotFound(CustomerNotFound)
      case Some(d) => Ok(200, d)
    }

    /** PUT /customers/{id} */
    method UpdateCustomer(id: Id, body: CustomerBody, now: DateTime) returns (r: Response<Customer>)
      requires Valid()
      modifies this
      ensures Valid()
      ensures r.Ok? || r.NotFound? || r.Failed?
      ensures r.NotFound? <==> !HasId(old(customers), id)
      ensures r.NotFound? ==> r.error == CustomerNotFound && customers == old(customers)
      ensures r.Failed? <==> HasId(old(customers), id) && body.age.Given? && !FitsInt64(body.age.value)
      ensures r.Failed? ==> customers == old(customers)
      ensures r.Ok? ==> r.status == 200 && r.doc.id == id
      ensures r.Ok? ==> var i := IndexOf(old(customers), id).value;
                        && r.doc.record == PatchCustomer(old(customers)[i].record, body, now)
                        && customers == old(customers)[i := r.doc]
      ensures r.Ok? ==> GetCustomer(id) == r
      ensures forall other :: other != id ==> GetCustomer(other) == old(GetCustomer(other))
      ensures products == old(products) && staff == old(staff) && orders == old(orders)
      ensures nextId == old(nextId)
    {
      var found := IndexOf(customers, id);
      if found.None? {
        return NotFound(CustomerNotFound);
      }
      var i := found.value;
      var patched := PatchCustomer(customers[i].record, body, now);
      if !CustomerEncodable(patched) {
        return Failed;
      }
      var doc := Doc(id, patched);
      ReplaceAt(customers, i, doc.record);
      customers := customers[i := doc];
      r := Ok(200, doc);
    }

    /** DELETE /customers/{id} */
    method DeleteCustomer(id: Id) returns (r: Response<Customer>)
      requires Valid()
      modifies this
      ensures Valid()
      ensures r.NoContent? || r.NotFound?
      ensures r.NotFound? <==> !HasId(old(customers), id)
      ensures r.NotFound? ==> r.error == CustomerNotFound && customers == old(customers)
      ensures r.NoContent? ==> var i := IndexOf(old(customers), id).value;
                               customers == old(customers)[..i] + old(customers)[i + 1..]
      ensures GetCustomer(id) == NotFound(CustomerNotFound)
      ensures forall other :: other != id ==> GetCustomer(other) == old(GetCustomer(other))
      ensures products == old(products) && staff == old(staff) && orders == old(orders)
      ensures nextId == old(nextId)
    {
      var found := IndexOf(customers, id);
      if found.None? {
        return NotFound(CustomerNotFound);
      }
      var i := found.value;
      RemoveAt(customers, i);
      customers := customers[..i] + customers[i + 1..];
      r := NoContent;
    }

    // --- Staff ---

    /** GET /staff */
    method ListStaff(limit: Option<int>) returns (r: Response<Staff>)
      requires LimitOk(limit)
      ensures r.Listing?
      ensures limit.None? ==> r.docs == staff
      ensures limit.Some? ==> r.docs == staff[..Min(limit.value, |staff|)]
    {
      var cursor := ApplyLimit(staff, limit);
      r := Listing(cursor);
    }

    /** POST /staff */
    method CreateStaff(body: StaffBody, parseDate: string -> Option<DateTime>,
                       createdAt: DateTime, updatedAt: DateTime) returns (r: Response<Staff>)
      requires Valid()
      modifies this
      ensures Valid()
      ensures r.Ok? || r.Failed?
      ensures r.Ok? <==> (&& body.firstName.Given? && body.lastName.Given? && body.age.Given?
                          && body.employeeSince.Given? && parseDate(body.employeeSince.value).Some?
                          && FitsInt64(body.age.value))
      ensures r.Failed? ==> staff == old(staff) && nextId == old(nextId)
      ensures r.Ok? ==> r.status == 201 && r.doc.id == old(nextId) && !HasId(old(staff), r.doc.id)
      ensures r.Ok? ==> r.doc.record == Staff(Some(body.firstName.value), Some(body.lastName.value),
                                              parseDate(body.employeeSince.value), Some(body.age.value),
                                              Some(createdAt), Some(updatedAt))
      ensures r.Ok? ==> staff == old(staff) + [r.doc] && nextId == old(nextId) + 1
      ensures r.Ok? ==> GetStaff(r.doc.id) == Ok(200, r.doc)
      ensures forall other :: (r.Ok? ==> other != r.doc.id) ==> GetStaff(other) == old(GetStaff(other))
      ensures products == old(products) && customers == old(customers) && orders == old(orders)
    {
      var draft := StaffDraft(body, parseDate, createdAt, updatedAt);
      if draft.None? || !StaffComplete(draft.value) || !StaffEncodable(draft.value) {
        return Failed;
      }
      var doc := Doc(nextId, draft.value);
      assert !HasId(staff, nextId);
      AppendFresh(staff, doc);
      staff := staff + [doc];
      nextId := nextId + 1;
      r := Ok(201, doc);
    }

    /** GET /staff/{id} */
    function GetStaff(id: Id): (r: Response<Staff>)
      reads this
      ensures r.Ok? || r.NotFound?
      ensures r.NotFound? <==> !HasId(staff, id)
      ensures r.NotFound? ==> r.error == StaffNotFound
      ensures r.Ok? ==> r.status == 200 && r.doc.id == id && r.doc in staff
    {
      match Lookup(staff, id)
      case None => NotFound(StaffNotFound)
      case Some(d) => Ok(200, d)
    }

    /** PUT /staff/{id} */
    method UpdateStaff(id: Id, body: StaffBody, now: DateTime) returns (r: Response<Staff>)
      requires Valid()
      modifies this
      ensures Valid()
      ensures r.Ok? || r.NotFound? || r.Failed?
      ensures r.NotFound? <==> !HasId(old(staff), id)
      ensures r.NotFound? ==> r.error == StaffNotFound && staff == old(staff)
      ensures r.Failed? <==> && HasId(old(staff), id)
                             && (body.lastName.Null? || (body.age.Given? && !FitsInt64(body.age.value)))
      ensures r.Failed? ==> staff == old(staff)
      ensures r.Ok? ==> r.status == 200 && r.doc.id == id
      ensures r.Ok? ==> var i := IndexOf(old(staff), id).value;
                        && r.doc.record == PatchStaff(old(staff)[i].record, body, now)
                        && staff == old(staff)[i := r.doc]
      ensures r.Ok? ==> GetStaff(id) == r
      ensures forall other :: other != id ==> GetStaff(other) == old(GetStaff(other))
      ensures products == old(products) && customers == old(customers) && orders == old(orders)
      ensures nextId == old(nextId)
    {
      var found := IndexOf(staff, id);
      if found.None? {
        return NotFound(StaffNotFound);
      }
      var i := found.value;
      var patched := PatchStaff(staff[i].record, body, now);
      // The store validates a string it is asked to set and refuses None;
      // an integer field passes None through.
      if body.lastName.Null? || !StaffEncodable(patched) {
        return Failed;
      }
      var doc := Doc(id, patched);
      ReplaceAt(staff, i, doc.record);
      staff := staff[i := doc];
      r := Ok(200, doc);
    }

    /** DELETE /staff/{id} */
    method DeleteStaff(id: Id) returns (r: Response<Staff>)
      requires Valid()
      modifies this
      ensures Valid()
      ensures r.NoContent? || r.NotFound?
      ensures r.NotFound? <==> !HasId(old(staff), id)
      ensures r.NotFound? ==> r.error == StaffNotFound && staff == old(staff)
      ensures r.NoContent? ==> var i := IndexOf(old(staff), id).value;
                               staff == old(staff)[..i] + old(staff)[i + 1..]
      ensures GetStaff(id) == NotFound(StaffNotFound)
      ensures forall other :: other != id ==> GetStaff(other) == old(GetStaff(other))
      ensures products == old(products) && customers == old(customers) && orders == old(orders)
      ensures nextId == old(nextId)
    {
      var found := IndexOf(staff, id);
      if found.None? {
        return NotFound(StaffNotFound);
      }
      var i := found.value;
      RemoveAt(staff, i);
      staff := staff[..i] + staff[i + 1..];
      r := NoContent;
    }

    // --- Orders ---

    /** GET /orders */
    method ListOrders(limit: Option<int>) returns (r: Response<Order>)
      requires LimitOk(limit)
      ensures r.Listing?
      ensures limit.None? ==> r.docs == orders
      ensures limit.Some? ==> r.docs == orders[..Min(limit.value, |orders|)]
    {
      var cursor := ApplyLimit(orders, limit);
      r := Listing(cursor);
    }

    /** POST /orders: each reference is looked up in its own collection; an
        unresolved one leaves the order incomplete and the save fails. */
    method CreateOrder(body: OrderBody, createdAt: DateTime, updatedAt: DateTime) returns (r: Response<Order>)
      requires Valid()
      modifies this
      ensures Valid()
      ensures r.Ok? || r.Failed?
      ensures r.Ok? <==> && body.productId.Given? && HasId(products, body.productId.value)
                         && body.customerId.Given? && HasId(customers, body.customerId.value)
                         && body.staffId.Given? && HasId(staff, body.staffId.value)
      ensures r.Failed? ==> orders == old(orders) && nextId == old(nextId)
      ensures r.Ok? ==> r.status == 201 && r.doc.id == old(nextId) && !HasId(old(orders), r.doc.id)
      ensures r.Ok? ==> r.doc.record == Order(Some(body.productId.value), Some(body.customerId.value),
                                              Some(body.staffId.value), Some(createdAt), Some(updatedAt))
      ensures r.Ok? ==> orders == old(orders) + [r.doc] && nextId == old(nextId) + 1
      ensures products == old(products) && customers == old(customers) && staff == old(staff)
    {
      if body.productId.Absent? {
        return Failed;
      }
      var product := Resolve(products, body.productId);
      if body.customerId.Absent? {
        return Failed;
      }
      var customer := Resolve(customers, body.customerId);
      if body.staffId.Absent? {
        return Failed;
      }
      var staffMember := Resolve(staff, body.staffId);
      var draft := Order(product, customer, staffMember, Some(createdAt), Some(updatedAt));
      if !OrderComplete(draft) {
        return Failed;
      }
      var doc := Doc(nextId, draft);
      assert !HasId(orders, nextId);
      AppendFresh(orders, doc);
      orders := orders + [doc];
      nextId := nextId + 1;
      r := Ok(201, doc);
    }

    /** GET /orders/{product_id}: 404 when no order references the product,
        otherwise the referencing orders with the limit applied. */
    function OrdersByProduct(productId: Id, limit: Option<int>): (r: Response<Order>)
      reads this
      requires LimitOk(limit)
      ensures r.Listing? || r.NotFound?
      ensures r.NotFound? <==> forall i :: 0 <= i < |orders| ==> orders[i].record.product != Some(productId)
      ensures r.NotFound? ==> r.error == OrdersNotFound
      ensures r.Listing? ==> r.docs != [] && r.docs == Limited(OrdersOfProduct(orders, productId), limit)
    {
      var matching := OrdersOfProduct(orders, productId);
      if matching == [] then NotFound(OrdersNotFound)
      else Listing(Limited(matching, limit))
    }

    /** GET /orders/{product_id}/{customer_id}: the first order in store order
        referencing both, or 404. */
    function OrderByProductAndCustomer(productId: Id, customerId: Id): (r: Response<Order>)
      reads this
      ensures r.Ok? || r.NotFound?
      ensures r.NotFound? <==> forall i :: 0 <= i < |orders| ==> !OrderMatches(orders[i], productId, customerId)
      ensures r.NotFound? ==> r.error == OrderNotFound
      ensures r.Ok? ==> r.status == 200
      ensures r.Ok? ==> exists i :: && 0 <= i < |orders| && orders[i] == r.doc
                                   && OrderMatches(orders[i], productId, customerId)
                                   && forall j :: 0 <= j < i ==> !OrderMatches(orders[j], productId, customerId)
    {
      match FirstOrderOf(orders, productId, customerId)
      case None => NotFound(OrderNotFound)
      case Some(i) => Ok(200, orders[i])
    }
  }
}
