/** Request sequences against a fresh store, checked from the handlers'
    contracts alone. */
module Scenarios {
  import opened Wrappers
  import opened Collection
  import opened Models
  import opened Warehouse

  /** Create a product, read it back, change its amount, delete it, and read
      it again. */
  method ProductLifecycle(price: Float, t0: DateTime, t1: DateTime, t2: DateTime)
  {
    var store := new Store();
    var created := store.CreateProduct(ProductBody(Given("Widget"), Given(price), Given(10)), t0, t1);
    assert created.Ok? && created.status == 201;
    var id := created.doc.id;
    assert created.doc.record.amount == Some(10) && created.doc.record.price == Some(price);
    assert store.GetProduct(id) == Ok(200, created.doc);

    var updated := store.UpdateProduct(id, ProductBody(Absent, Absent, Given(5)), t2);
    assert HasId(store.products, id);
    assert updated.Ok? && updated.status == 200;
    assert updated.doc.record.amount == Some(5);
    assert updated.doc.record.price == Some(price);
    assert updated.doc.record.name == Some("Widget");
    assert updated.doc.record.createdAt == Some(t0) && updated.doc.record.updatedAt == Some(t2);

    var deleted := store.DeleteProduct(id);
    assert deleted.NoContent?;
    assert store.GetProduct(id) == NotFound("Product not found");
  }

  /** An order naming a customer that does not exist is not stored. */
  method OrderWithUnknownCustomer(price: Float, t: DateTime, unknown: Id)
  {
    var store := new Store();
    var p := store.CreateProduct(ProductBody(Given("Widget"), Given(price), Given(1)), t, t);
    var s := store.CreateStaff(StaffBody(Given("Ada"), Given("Byron"), Given("2020-01-01"), Given(36)),
                               (text: string) => Some(t), t, t);
    assert p.Ok? && s.Ok?;
    assert store.customers == [];
    var o := store.CreateOrder(OrderBody(Given(p.doc.id), Given(unknown), Given(s.doc.id)), t, t);
    assert o.Failed?;
    assert store.orders == [];
    assert store.OrderByProductAndCustomer(p.doc.id, unknown) == NotFound("Order not found for the given product and customer");
    assert store.OrdersByProduct(p.doc.id, None) == NotFound("Orders not found for the given product");
  }
}
