# Warehouse service: a Dafny model of its handlers

The warehouse service is a REST API over a document store holding four
collections: products, customers, staff members and orders. Each handler does
one store operation: list a collection (with an optional result-count limit),
create a document from a JSON body, read one by identifier, partially update
it, or delete it. Orders also have a creation that resolves three references
and two lookups by reference.

This project models those handlers as a class `Warehouse.Store`. Each
collection is a sequence of `(id, record)` documents in insertion order, which
is the store's native order. Identifiers come from a counter, so every insert
gets a fresh one. Every handler returns a `Response`:

- `Ok(200 or 201, document)`
- `Listing(documents)`
- `NoContent` (204)
- `NotFound(message)` (404)
- `Failed`, an exception the handler does not catch: a missing body key, an unparsable date, a refused save, or an integer the store cannot encode.

The store invariant `Store.Valid` says that identifiers are unique within each collection, that the counter is above every stored identifier, that every stored `amount` and `age` fits in 64 bits, and that every stored order holds all three references.

The model is split into these modules:

- `collection.dfy` (`Collection`): the store's queries over one collection (lookup by identifier, filter, first match, the limit) and the lemmas saying that an append, a replacement or a removal leaves every other lookup as it was.
- `models.dfy` (`Models`): the four record types. Every field is required, and the store writes an integer only when it fits in a signed 64-bit integer. So a document may be saved exactly when it is complete and its integers fit. Fields are `Option`s, because a document object can hold no value in a field before it is saved.
- `warehouse.dfy` (`Warehouse`): request bodies, the documents built from them, the partial updates, the order queries and the store with its handlers.
- `scenarios.dfy` (`Scenarios`): two request sequences proved from the handlers' contracts. One creates, reads, updates and deletes a product. The other tries to create an order whose customer does not exist.

A JSON body key is `Absent`, `Null` or `Given(value)`:

- `Absent` in a create body raises a key error, so the create fails.
- `Null` in a create body puts no value into the field, so the save is refused.
- In an update body, an absent key keeps the stored value and a present key overwrites it. An explicit null clears a number field (price, amount, age): the store passes None through for those. An explicit null for last_name makes the staff update fail with nothing changed, because the store validates a string it is asked to set and refuses None.
- In an order body, a null reference becomes a freshly generated identifier. No document has that identifier, so the lookup finds nothing.

An order whose reference does not resolve is never stored. The missing reference is a required field (models.py:30-32), so the save is refused and the request fails with an uncaught validation error. It does not answer 400, and it does not store a null reference.

`created_at` and `updated_at` come from two separate clock reads in the source. The create handlers therefore take them as two parameters, and the model does not claim they are equal. The update handlers take one `now`.

## Model

| member | source | states |
|---|---|---|
| `Collection.Limited` | main.py:16-20 | with no limit the whole cursor; with a limit n > 0 exactly the first min(n, length) elements, in order |
| `Collection.ApplyLimit` | main.py:16-20 | reassigning the cursor yields exactly the limited sequence |
| `Collection.Where` | main.py:214 | a filter query returns only matching elements, every matching element, in store order (a subsequence), and is empty exactly when nothing matches |
| `Collection.WhereCounts` | main.py:214 | a filter keeps each matching element exactly as many times as it occurs, and no other element |
| `Collection.FirstWhere` | main.py:222 | `.first()` on a filter gives the position of a match with no earlier match, or none exactly when nothing matches |
| `Collection.IndexOf` | main.py:65 | the position found holds the requested identifier; none exactly when no document has it |
| `Collection.Lookup` | main.py:65 | `objects(id=...).first()` returns a stored document with that identifier, or None exactly when there is none |
| `Collection.LookupAt` | main.py:65 | with unique identifiers the lookup returns exactly the document holding the identifier |
| `Collection.AppendFresh` | main.py:60 | saving a document under a fresh identifier keeps identifiers unique, makes it findable and leaves every other lookup unchanged |
| `Collection.ReplaceAt` | main.py:76-81 | updating a document in place keeps identifiers unique, the lookup returns the new record, every other lookup is unchanged |
| `Collection.RemoveAt` | main.py:89 | deleting a document keeps identifiers unique, its identifier is no longer found, every other lookup is unchanged |
| `Models.ProductComplete` | models.py:5-10 | a product may be saved only with name, price, amount, created_at and updated_at all present |
| `Models.CustomerComplete` | models.py:12-19 | a customer may be saved only with both names, street, postal_code, age and both timestamps present |
| `Models.StaffComplete` | models.py:21-27 | a staff member may be saved only with both names, employee_since, age and both timestamps present |
| `Models.FitsInt64` | models.py:8 | the range of a 64-bit integer field (`amount` here, `age` at models.py:17 and models.py:25), the only integers the store writes |
| `Models.OrderComplete` | models.py:29-34 | an order may be saved only with its product, customer and staff references and both timestamps present |
| `Warehouse.ProductDraft` | main.py:53-59 | the product is built exactly when all three keys are present; it is complete exactly when none is null, and then it holds the body's values and the two timestamps |
| `Warehouse.CustomerDraft` | main.py:102-110 | the same for the five customer keys |
| `Warehouse.StaffDraft` | main.py:152-159 | the same for the four staff keys; employee_since must be given and accepted by the date parser, and holds the parsed date |
| `Warehouse.Resolve` | main.py:203-205 | a reference resolves exactly when it is given and a document of that collection has it, and then to that identifier |
| `Warehouse.PatchProduct` | main.py:76-81 | only price, amount and updated_at can change; each of price and amount keeps its value when absent, takes the body's value when given and is cleared by an explicit null; updated_at is always now; an empty body changes only updated_at; completeness kept without nulls; the result's amount fits in 64 bits exactly when the given one does, or the old one did |
| `Warehouse.PatchCustomer` | main.py:127-130 | only age and updated_at can change; age keeps its value when absent, takes the body's value when given and is cleared by an explicit null; updated_at is always now; the result's age fits in 64 bits exactly when the given one does, or the old one did |
| `Warehouse.PatchStaff` | main.py:176-180 | only last_name, age and updated_at can change; each keeps its value when absent, takes the body's value when given and is cleared by an explicit null; updated_at is always now; the result's age fits in 64 bits exactly when the given one does, or the old one did |
| `Warehouse.OrdersOfProduct` | main.py:214 | exactly the orders referencing the product, in store order |
| `Warehouse.FirstOrderOf` | main.py:222 | the first order in store order referencing both product and customer, or none exactly when no order does |
| `Warehouse.Store.ListProducts` | main.py:44-48 | returns the whole collection, or its first min(n, size) documents for a limit n > 0 |
| `Warehouse.Store.CreateProduct` | main.py:50-61 | succeeds exactly when name, price and amount are given and amount fits in 64 bits; appends one document with a fresh identifier and the body's values and returns it with 201; a following get returns it; otherwise nothing changes |
| `Warehouse.Store.GetProduct` | main.py:63-68 | 200 with the document having the identifier, or 404 "Product not found" exactly when there is none |
| `Warehouse.Store.UpdateProduct` | main.py:70-82 | 404 and no change when the identifier is unknown; a failure with no change exactly when a given amount does not fit in 64 bits; otherwise replaces that one document by its patched record and returns the reloaded document; other documents unchanged |
| `Warehouse.Store.DeleteProduct` | main.py:84-90 | 404 and no change when unknown; otherwise removes exactly that document and returns 204; a following get is 404; other documents unchanged |
| `Warehouse.Store.ListCustomers` | main.py:93-97 | as ListProducts, for customers |
| `Warehouse.Store.CreateCustomer` | main.py:99-112 | as CreateProduct, for the five customer keys, with age in 64 bits |
| `Warehouse.Store.GetCustomer` | main.py:114-119 | 200 with the document, or 404 "Customer not found" exactly when there is none |
| `Warehouse.Store.UpdateCustomer` | main.py:121-132 | as UpdateProduct, with PatchCustomer and a given age outside 64 bits failing |
| `Warehouse.Store.DeleteCustomer` | main.py:134-140 | as DeleteProduct, for customers |
| `Warehouse.Store.ListStaff` | main.py:143-147 | as ListProducts, for staff |
| `Warehouse.Store.CreateStaff` | main.py:149-161 | as CreateProduct, for the staff keys, with the parsed employee_since and age in 64 bits |
| `Warehouse.Store.GetStaff` | main.py:163-168 | 200 with the document, or 404 "Staff member not found" exactly when there is none |
| `Warehouse.Store.UpdateStaff` | main.py:170-182 | as UpdateProduct, with PatchStaff; a failure with no change exactly when last_name is null or a given age does not fit in 64 bits |
| `Warehouse.Store.DeleteStaff` | main.py:184-190 | as DeleteProduct, for staff |
| `Warehouse.Store.ListOrders` | main.py:193-197 | as ListProducts, for orders |
| `Warehouse.Store.CreateOrder` | main.py:199-210 | succeeds exactly when all three references are given and resolve in their own collections; then appends one complete order referencing them; otherwise no order is stored; the other collections are never changed |
| `Warehouse.Store.OrdersByProduct` | main.py:212-218 | 404 "Orders not found for the given product" exactly when no order references the product; otherwise the referencing orders in store order with the limit applied |
| `Warehouse.Store.OrderByProductAndCustomer` | main.py:220-225 | the first order in store order referencing both, with 200, or 404 "Order not found for the given product and customer" exactly when there is none |

## Left out

- HTTP routing, JSON serialisation, body parsing and the registered error handlers (main.py:1-13, main.py:23-41). A body arrives as a record of the keys a handler reads, and extra keys are not represented. A missing or unparsable body is not modelled.
- The store connection settings (main.py:7-13), and the store's own atomicity and concurrency. Each handler is modelled as one atomic step.
- Parsing an identifier from text. Identifiers are already valid opaque tokens, so the uncaught error that a malformed identifier raises is not modelled.
- The store's identifier generator. A counter stands in for it: identifiers are unique within each collection and fresh on insert.
- The clock and the date parser. Timestamps are opaque parameters. The date parser is a function parameter that either gives a date or fails. Because timestamps are opaque, the model does not claim that updated_at is at least created_at.
- Values of the wrong JSON type for a key (a string for amount, say). Body values are typed.
- Floating point: `price` is stored as an opaque bit pattern and never computed with.
- Collection.Limited: requires the limit, when present, to be positive. A zero or negative limit goes to the store's `limit`, whose meaning is not part of this model.
- Collection.ApplyLimit: requires the limit, when present, to be positive. A zero or negative limit goes to the store's `limit`, whose meaning is not part of this model.
- Warehouse.Store.ListProducts: requires the limit, when present, to be positive. A zero or negative limit goes to the store's `limit`, whose meaning is not part of this model.
- Warehouse.Store.ListCustomers: requires the limit, when present, to be positive. A zero or negative limit goes to the store's `limit`, whose meaning is not part of this model.
- Warehouse.Store.ListStaff: requires the limit, when present, to be positive. A zero or negative limit goes to the store's `limit`, whose meaning is not part of this model.
- Warehouse.Store.ListOrders: requires the limit, when present, to be positive. A zero or negative limit goes to the store's `limit`, whose meaning is not part of this model.
- Warehouse.Store.OrdersByProduct: requires the limit, when present, to be positive. A zero or negative limit goes to the store's `limit`, whose meaning is not part of this model.
- The exact status of a failed create or update (a key error, a refused save, an integer the store cannot encode). It is modelled only as `Failed`, with the store unchanged.
- How an order is serialised in the response (references expanded or as identifiers). An order stores the three identifiers.
