/**
 * What the upserts of main.py promise, proved about the staging functions
 * of `Reconcile`: insert versus update, re-running a payload, the links a
 * staged row carries, and the batch a cross-tenant external id dooms.
 */
module Properties {
  import opened Wrappers
  import opened Models
  import opened Payload
  import opened Reconcile

  // ---------------------------------------------------------------------
  // Insert versus update (main.py:64-85)

  /**
   * A customer record whose (external id, tenant) has a row overwrites the
   * first such row's names, email and phone in place and adds nothing;
   * otherwise exactly one row with the record's values is appended under the
   * next id. Every other row is left as it was.
   */
  lemma UpsertCustomerInPlaceOrAppend(db: Database, tenantId: nat, c: CustomerJson)
    ensures var r := UpsertCustomer(db, tenantId, c);
      (exists k :: 0 <= k < |db.customers| && CustomerKey(db.customers[k]) == (c.id, tenantId)) ==>
        && |r.customers| == |db.customers| && r.nextId == db.nextId
        && var k := FindCustomer(db, c.id, tenantId).value;
           r.customers[k] == Customer(db.customers[k].id, tenantId, c.id, c.firstName, c.lastName, c.email, c.phone)
    ensures var r := UpsertCustomer(db, tenantId, c);
      (forall k :: 0 <= k < |db.customers| ==> CustomerKey(db.customers[k]) != (c.id, tenantId)) ==>
        && r.customers == db.customers + [Customer(db.nextId, tenantId, c.id, c.firstName, c.lastName, c.email, c.phone)]
        && r.nextId == db.nextId + 1
    ensures var r := UpsertCustomer(db, tenantId, c);
      forall k :: 0 <= k < |db.customers| && FindCustomer(db, c.id, tenantId) != Some(k) ==>
        r.customers[k] == db.customers[k]
  {
  }

  /**
   * A product record whose (external id, tenant) has a row overwrites the
   * first such row's title, vendor and type in place and adds nothing;
   * otherwise one row is appended under the next id. Either way the id the
   * variants link to is that row's id.
   */
  lemma UpsertProductInPlaceOrAppend(db: Database, tenantId: nat, p: ProductJson)
    ensures var (r, pid) := UpsertProductRow(db, tenantId, p);
      (exists k :: 0 <= k < |db.products| && ProductKey(db.products[k]) == (p.id, tenantId)) ==>
        && |r.products| == |db.products| && r.nextId == db.nextId
        && var k := FindProduct(db, p.id, tenantId).value;
           && r.products[k] == Product(db.products[k].id, tenantId, p.id, p.title, p.vendor, p.productType)
           && pid == db.products[k].id
    ensures var (r, pid) := UpsertProductRow(db, tenantId, p);
      (forall k :: 0 <= k < |db.products| ==> ProductKey(db.products[k]) != (p.id, tenantId)) ==>
        && r.products == db.products + [Product(db.nextId, tenantId, p.id, p.title, p.vendor, p.productType)]
        && r.nextId == db.nextId + 1 && pid == db.nextId
    ensures var (r, pid) := UpsertProductRow(db, tenantId, p);
      forall k :: 0 <= k < |db.products| && FindProduct(db, p.id, tenantId) != Some(k) ==>
        r.products[k] == db.products[k]
  {
  }

  /**
   * A variant is looked up by its external id alone. A new one links to the
   * product being ingested; one that exists keeps its id, external id and
   * `product_id` (even when another product lists it) and takes the title,
   * price, sku, weight and weight unit of the record.
   */
  lemma UpsertVariantLinks(db: Database, productId: nat, v: VariantJson)
    ensures var r := UpsertVariant(db, productId, v);
      (exists k :: 0 <= k < |db.variants| && db.variants[k].shopifyVariantId == v.id) ==>
        && |r.variants| == |db.variants| && r.nextId == db.nextId
        && var k := FindVariant(db, v.id).value;
           r.variants[k] == ProductVariant(db.variants[k].id, db.variants[k].productId, v.id,
                                           v.title, v.price, v.sku, v.weight, v.weightUnit)
    ensures var r := UpsertVariant(db, productId, v);
      (forall k :: 0 <= k < |db.variants| ==> db.variants[k].shopifyVariantId != v.id) ==>
        && r.variants == db.variants + [ProductVariant(db.nextId, productId, v.id, v.title, v.price, v.sku, v.weight, v.weightUnit)]
        && r.nextId == db.nextId + 1
    ensures var r := UpsertVariant(db, productId, v);
      forall k :: 0 <= k < |db.variants| && FindVariant(db, v.id) != Some(k) ==> r.variants[k] == db.variants[k]
  {
    if FindVariant(db, v.id).None? {
      assert forall k :: 0 <= k < |db.variants| ==> VariantKey(db.variants[k]) != v.id;
    }
  }

  /**
   * An order record sets its customer link to the resolved customer, or to
   * null when none resolves, also over a link set before; its row is
   * overwritten in place when (external id, tenant) exists, else appended,
   * and no customer row ever changes.
   */
  lemma UpsertOrderLinksCustomer(db: Database, tenantId: nat, o: OrderJson)
    ensures var (r, oid) := UpsertOrderRow(db, tenantId, o);
      var cid := ResolveCustomer(db, tenantId, o.customer);
      (exists k :: 0 <= k < |db.orders| && OrderKey(db.orders[k]) == (o.id, tenantId)) ==>
        && |r.orders| == |db.orders| && r.nextId == db.nextId
        && var k := FindOrder(db, o.id, tenantId).value;
           && r.orders[k] == Order(db.orders[k].id, tenantId, cid, o.id, o.totalPrice, o.currency)
           && oid == db.orders[k].id
           && forall j :: 0 <= j < |db.orders| && j != k ==> r.orders[j] == db.orders[j]
    ensures var (r, oid) := UpsertOrderRow(db, tenantId, o);
      var cid := ResolveCustomer(db, tenantId, o.customer);
      (forall k :: 0 <= k < |db.orders| ==> OrderKey(db.orders[k]) != (o.id, tenantId)) ==>
        && r.orders == db.orders + [Order(db.nextId, tenantId, cid, o.id, o.totalPrice, o.currency)]
        && r.nextId == db.nextId + 1 && oid == db.nextId
    ensures UpsertOrderRow(db, tenantId, o).0.customers == db.customers
  {
  }

  /**
   * A line item whose variant is unknown changes nothing. Otherwise the row
   * of (order, variant) takes the record's quantity and price in place, or
   * one row is appended when there is none.
   */
  lemma UpsertLineItemSkipsOrUpserts(db: Database, orderId: nat, li: LineItemJson)
    ensures (forall k :: 0 <= k < |db.variants| ==> db.variants[k].shopifyVariantId != li.variantId) ==>
      UpsertLineItem(db, orderId, li) == db
    ensures var r := UpsertLineItem(db, orderId, li);
      FindVariant(db, li.variantId).Some? ==>
        var vid := db.variants[FindVariant(db, li.variantId).value].id;
        && ((exists k :: 0 <= k < |db.lineItems| && LineItemKey(db.lineItems[k]) == (orderId, vid)) ==>
              && |r.lineItems| == |db.lineItems| && r.nextId == db.nextId
              && var k := FindLineItem(db, orderId, vid).value;
                 && r.lineItems[k] == OrderLineItem(db.lineItems[k].id, orderId, vid, li.quantity, li.price)
                 && forall j :: 0 <= j < |db.lineItems| && j != k ==> r.lineItems[j] == db.lineItems[j])
        && ((forall k :: 0 <= k < |db.lineItems| ==> LineItemKey(db.lineItems[k]) != (orderId, vid)) ==>
              && r.lineItems == db.lineItems + [OrderLineItem(db.nextId, orderId, vid, li.quantity, li.price)]
              && r.nextId == db.nextId + 1)
  {
    if forall k :: 0 <= k < |db.variants| ==> db.variants[k].shopifyVariantId != li.variantId {
      assert forall k :: 0 <= k < |db.variants| ==> VariantKey(db.variants[k]) != li.variantId;
    }
  }

  // ---------------------------------------------------------------------
  // Running the same customer payload twice (main.py:60-88)

  /** Every record of `cs` has a row of the tenant with its external id. */
  ghost predicate CustomersPresent(db: Database, tenantId: nat, cs: seq<CustomerJson>) {
    forall i :: 0 <= i < |cs| ==> FindCustomer(db, cs[i].id, tenantId).Some?
  }

  lemma CustomersPresentGrows(a: Database, b: Database, tenantId: nat, cs: seq<CustomerJson>)
    requires Grows(a, b) && CustomersPresent(a, tenantId, cs)
    ensures CustomersPresent(b, tenantId, cs)
  {
    forall i | 0 <= i < |cs| ensures FindCustomer(b, cs[i].id, tenantId).Some? {
      FindKeyStable(a.customers, b.customers, CustomerKey, (cs[i].id, tenantId));
    }
  }

  /** After a payload is staged, each of its records has its row. */
  lemma {:induction false} StageCustomersPresent(db: Database, tenantId: nat, cs: seq<CustomerJson>)
    ensures CustomersPresent(StageCustomers(db, tenantId, cs), tenantId, cs)
  {
    if |cs| > 0 {
      var init := cs[..|cs| - 1];
      StageCustomersPresent(db, tenantId, init);
      CustomersPresentStep(StageCustomers(db, tenantId, init), tenantId, cs);
    }
  }

  lemma CustomersPresentStep(prev: Database, tenantId: nat, cs: seq<CustomerJson>)
    requires |cs| > 0 && CustomersPresent(prev, tenantId, cs[..|cs| - 1])
    ensures CustomersPresent(UpsertCustomer(prev, tenantId, cs[|cs| - 1]), tenantId, cs)
  {
    var r := UpsertCustomer(prev, tenantId, cs[|cs| - 1]);
    CustomersPresentGrows(prev, r, tenantId, cs[..|cs| - 1]);
    forall i | 0 <= i < |cs| - 1 ensures FindCustomer(r, cs[i].id, tenantId).Some? {
      assert cs[..|cs| - 1][i] == cs[i];
    }
  }

  /**
   * Re-ingesting the same customers changes nothing at all: each row of the
   * first run already carries the last record with its key, and the second
   * run only writes those values again.
   */
  lemma CustomersIdempotent(db: Database, tenantId: nat, cs: seq<CustomerJson>)
    ensures StageCustomers(StageCustomers(db, tenantId, cs), tenantId, cs) == StageCustomers(db, tenantId, cs)
  {
    var once := StageCustomers(db, tenantId, cs);
    StageCustomersPresent(db, tenantId, cs);
    StageCustomersSettles(db, tenantId, cs);
    StagePresentCustomers(once, tenantId, cs);
    forall j | 0 <= j < |once.customers| ensures Touched(once, tenantId, cs)[j] == once.customers[j] {
      SettledRowUntouched(once, tenantId, cs, j);
    }
    assert Touched(once, tenantId, cs) == once.customers;
  }

  /** A settled row already holds what its last record would write into it. */
  lemma SettledRowUntouched(once: Database, tenantId: nat, cs: seq<CustomerJson>, j: nat)
    requires Settled(once, tenantId, cs) && CustomersPresent(once, tenantId, cs)
    requires j < |once.customers|
    ensures Touched(once, tenantId, cs)[j] == once.customers[j]
  {
    match LastTouch(once, tenantId, cs, j)
    case None =>
    case Some(i) =>
      forall m | i < m < |cs| ensures cs[m].id != cs[i].id {
        assert FindCustomer(once, cs[m].id, tenantId) != Some(j);
      }
      assert LastOfId(cs, i);
  }

  /** The record `cs[i]` is the last one of the payload with its external id. */
  predicate LastOfId(cs: seq<CustomerJson>, i: nat)
    requires i < |cs|
  {
    forall m :: i < m < |cs| ==> cs[m].id != cs[i].id
  }

  /** The row holds the record's names, email and phone. */
  predicate Carries(row: Customer, c: CustomerJson) {
    row.firstName == c.firstName && row.lastName == c.lastName && row.email == c.email && row.phone == c.phone
  }

  /** Every record has its row, and the row carries the last record with that key. */
  ghost predicate Settled(db: Database, tenantId: nat, cs: seq<CustomerJson>) {
    forall i :: 0 <= i < |cs| ==>
      FindCustomer(db, cs[i].id, tenantId).Some? &&
      (LastOfId(cs, i) ==> Carries(db.customers[FindCustomer(db, cs[i].id, tenantId).value], cs[i]))
  }

  /** The upserted record's row carries it. */
  lemma UpsertCustomerCarries(db: Database, tenantId: nat, c: CustomerJson)
    ensures var r := UpsertCustomer(db, tenantId, c);
      Carries(r.customers[FindCustomer(r, c.id, tenantId).value], c)
  {
    var r := UpsertCustomer(db, tenantId, c);
    match FindCustomer(db, c.id, tenantId)
    case Some(k) =>
      FindKeySameKeys(db.customers, r.customers, CustomerKey, (c.id, tenantId));
    case None =>
      FindKeyAppend(db.customers, NewCustomer(db.nextId, tenantId, c), CustomerKey, (c.id, tenantId));
  }

  lemma {:induction false} StageCustomersSettles(db: Database, tenantId: nat, cs: seq<CustomerJson>)
    ensures Settled(StageCustomers(db, tenantId, cs), tenantId, cs)
  {
    if |cs| > 0 {
      var n := |cs| - 1;
      StageCustomersSettles(db, tenantId, cs[..n]);
      SettledStep(StageCustomers(db, tenantId, cs[..n]), tenantId, cs[..n], cs[n]);
      assert cs[..n] + [cs[n]] == cs;
    }
  }

  /** Upserting one more record keeps a settled table settled for the longer payload. */
  lemma SettledStep(prev: Database, tenantId: nat, init: seq<CustomerJson>, c: CustomerJson)
    requires Settled(prev, tenantId, init)
    ensures Settled(UpsertCustomer(prev, tenantId, c), tenantId, init + [c])
  {
    var cs := init + [c];
    var r := UpsertCustomer(prev, tenantId, c);
    UpsertCustomerCarries(prev, tenantId, c);
    forall i | 0 <= i < |cs|
      ensures FindCustomer(r, cs[i].id, tenantId).Some?
      ensures LastOfId(cs, i) ==> Carries(r.customers[FindCustomer(r, cs[i].id, tenantId).value], cs[i])
    {
      if i < |init| {
        assert cs[i] == init[i];
        SettledKeeps(prev, tenantId, init, c, i);
      }
    }
  }

  /** An earlier record keeps its row, and a later record with another key leaves that row alone. */
  lemma SettledKeeps(prev: Database, tenantId: nat, init: seq<CustomerJson>, c: CustomerJson, i: nat)
    requires i < |init| && Settled(prev, tenantId, init)
    ensures var r := UpsertCustomer(prev, tenantId, c);
      && FindCustomer(r, init[i].id, tenantId).Some?
      && (LastOfId(init + [c], i) ==> Carries(r.customers[FindCustomer(r, init[i].id, tenantId).value], init[i]))
  {
    var r := UpsertCustomer(prev, tenantId, c);
    FindKeyStable(prev.customers, r.customers, CustomerKey, (init[i].id, tenantId));
    if LastOfId(init + [c], i) {
      assert (init + [c])[|init|] == c;
      assert (init + [c])[i] == init[i];
      forall m | i < m < |init| ensures init[m].id != init[i].id {
        assert (init + [c])[m] == init[m];
      }
      assert LastOfId(init, i);
      UpsertCustomerInPlaceOrAppend(prev, tenantId, c);
    }
  }

  /** The last record of `cs` whose row is row `j`, looking keys up in `db`. */
  function LastTouch(db: Database, tenantId: nat, cs: seq<CustomerJson>, j: nat): (r: Option<nat>)
    ensures r.Some? ==> r.value < |cs| && FindCustomer(db, cs[r.value].id, tenantId) == Some(j)
    ensures r.Some? ==> forall m :: r.value < m < |cs| ==> FindCustomer(db, cs[m].id, tenantId) != Some(j)
    ensures r.None? ==> forall m :: 0 <= m < |cs| ==> FindCustomer(db, cs[m].id, tenantId) != Some(j)
  {
    if |cs| == 0 then None
    else if FindCustomer(db, cs[|cs| - 1].id, tenantId) == Some(j) then Some(|cs| - 1)
    else
      var r := LastTouch(db, tenantId, cs[..|cs| - 1], j);
      assert forall m :: 0 <= m < |cs| - 1 ==> cs[..|cs| - 1][m] == cs[m];
      r
  }

  /** The customers table with each row overwritten by the last record that finds it. */
  function Touched(db: Database, tenantId: nat, cs: seq<CustomerJson>): (r: seq<Customer>)
    ensures |r| == |db.customers|
    ensures forall j :: 0 <= j < |r| ==> CustomerKey(r[j]) == CustomerKey(db.customers[j]) && r[j].id == db.customers[j].id
  {
    seq(|db.customers|, j requires 0 <= j < |db.customers| =>
      match LastTouch(db, tenantId, cs, j)
      case None => db.customers[j]
      case Some(i) => OverwriteCustomer(db.customers[j], cs[i]))
  }

  /** The last record only changes the row it finds; the earlier records decide the others. */
  lemma TouchedStep(db: Database, tenantId: nat, cs: seq<CustomerJson>, k: nat)
    requires |cs| > 0 && FindCustomer(db, cs[|cs| - 1].id, tenantId) == Some(k)
    ensures var before := Touched(db, tenantId, cs[..|cs| - 1]);
      Touched(db, tenantId, cs) == before[k := OverwriteCustomer(before[k], cs[|cs| - 1])]
  {
    var before := Touched(db, tenantId, cs[..|cs| - 1]);
    var after := Touched(db, tenantId, cs);
    forall j | 0 <= j < |after| ensures before[k := OverwriteCustomer(before[k], cs[|cs| - 1])][j] == after[j] {
      if j != k {
        assert LastTouch(db, tenantId, cs, j) == LastTouch(db, tenantId, cs[..|cs| - 1], j);
      }
    }
  }

  /** When every record has its row, staging only overwrites, row by row. */
  lemma {:induction false} StagePresentCustomers(db: Database, tenantId: nat, cs: seq<CustomerJson>)
    requires CustomersPresent(db, tenantId, cs)
    ensures StageCustomers(db, tenantId, cs) == db.(customers := Touched(db, tenantId, cs))
  {
    if |cs| == 0 {
      assert Touched(db, tenantId, cs) == db.customers;
    } else {
      CustomersPresentPrefix(db, tenantId, cs);
      StagePresentCustomers(db, tenantId, cs[..|cs| - 1]);
      StagePresentCustomersStep(db, tenantId, cs);
    }
  }

  lemma CustomersPresentPrefix(db: Database, tenantId: nat, cs: seq<CustomerJson>)
    requires |cs| > 0 && CustomersPresent(db, tenantId, cs)
    ensures CustomersPresent(db, tenantId, cs[..|cs| - 1])
  {
    assert forall i :: 0 <= i < |cs| - 1 ==> cs[..|cs| - 1][i] == cs[i];
  }

  lemma StagePresentCustomersStep(db: Database, tenantId: nat, cs: seq<CustomerJson>)
    requires |cs| > 0 && CustomersPresent(db, tenantId, cs)
    requires StageCustomers(db, tenantId, cs[..|cs| - 1]) == db.(customers := Touched(db, tenantId, cs[..|cs| - 1]))
    ensures StageCustomers(db, tenantId, cs) == db.(customers := Touched(db, tenantId, cs))
  {
    var n := |cs| - 1;
    var prev := StageCustomers(db, tenantId, cs[..n]);
    var k := FindCustomer(db, cs[n].id, tenantId).value;
    FindKeySameKeys(db.customers, prev.customers, CustomerKey, (cs[n].id, tenantId));
    TouchedStep(db, tenantId, cs, k);
    assert StageCustomers(db, tenantId, cs) == UpsertCustomer(prev, tenantId, cs[n]);
    assert UpsertCustomer(prev, tenantId, cs[n]) ==
      prev.(customers := prev.customers[k := OverwriteCustomer(prev.customers[k], cs[n])]);
  }

  // ---------------------------------------------------------------------
  // An external id another tenant holds (models.py:21 against main.py:64-67)

  lemma CustomersClash(s: seq<Customer>, a: nat, b: nat)
    requires a < |s| && b < |s| && a != b
    requires CustomerSid(s[a]).Some? && CustomerSid(s[a]) == CustomerSid(s[b])
    ensures !UniqueNonNull(s, CustomerSid)
  {
    if a < b {
      assert CustomerSid(s[a]).Some? && CustomerSid(s[a]) == CustomerSid(s[b]);
    } else {
      assert CustomerSid(s[b]).Some? && CustomerSid(s[b]) == CustomerSid(s[a]);
    }
  }

  /**
   * The lookup is scoped to the tenant but the constraint is not: a record
   * carrying an external id that another tenant's customer holds makes the
   * staged batch one the database refuses, wherever the record sits.
   */
  lemma {:induction false} CrossTenantCustomerRefused(db: Database, tenantId: nat, cs: seq<CustomerJson>, i: nat, other: nat)
    requires i < |cs| && other < |db.customers|
    requires cs[i].id.Some? && db.customers[other].shopifyCustomerId == cs[i].id
    requires db.customers[other].tenantId != tenantId
    ensures !Unique(StageCustomers(db, tenantId, cs))
  {
    var prev := StageCustomers(db, tenantId, cs[..i]);
    var next := UpsertCustomer(prev, tenantId, cs[i]);
    assert CustomerKey(prev.customers[other]) == CustomerKey(db.customers[other]);
    assert CustomerKey(next.customers[other]) == CustomerKey(db.customers[other]);
    var k := FindCustomer(next, cs[i].id, tenantId).value;
    CustomersClash(next.customers, k, other);
    StageCustomersStep(db, tenantId, cs, i);
    StageCustomersPrefixGrows(db, tenantId, cs, i + 1);
    ViolationPersists(next, StageCustomers(db, tenantId, cs));
  }

  lemma ProductsClash(s: seq<Product>, a: nat, b: nat)
    requires a < |s| && b < |s| && a != b
    requires ProductSid(s[a]).Some? && ProductSid(s[a]) == ProductSid(s[b])
    ensures !UniqueNonNull(s, ProductSid)
  {
    if a < b {
      assert ProductSid(s[a]).Some? && ProductSid(s[a]) == ProductSid(s[b]);
    } else {
      assert ProductSid(s[b]).Some? && ProductSid(s[b]) == ProductSid(s[a]);
    }
  }

  /** The same for products (models.py:35 against main.py:113-116). */
  lemma CrossTenantProductRefused(db: Database, tenantId: nat, ps: seq<ProductJson>, i: nat, other: nat)
    requires i < |ps| && other < |db.products|
    requires ps[i].id.Some? && db.products[other].shopifyProductId == ps[i].id
    requires db.products[other].tenantId != tenantId
    ensures !Unique(StageProducts(db, tenantId, ps))
  {
    var prev := StageProducts(db, tenantId, ps[..i]);
    var (d, pid) := UpsertProductRow(prev, tenantId, ps[i]);
    assert ProductKey(prev.products[other]) == ProductKey(db.products[other]);
    assert ProductKey(d.products[other]) == ProductKey(db.products[other]);
    ProductsClash(d.products, FindProduct(d, ps[i].id, tenantId).value, other);
    StageProductsStep(db, tenantId, ps, i);
    StageProductsPrefixGrows(db, tenantId, ps, i + 1);
    GrowsTransitive(d, StageProducts(db, tenantId, ps[..i + 1]), StageProducts(db, tenantId, ps));
    ViolationPersists(d, StageProducts(db, tenantId, ps));
  }

  lemma OrdersClash(s: seq<Order>, a: nat, b: nat)
    requires a < |s| && b < |s| && a != b
    requires OrderSid(s[a]).Some? && OrderSid(s[a]) == OrderSid(s[b])
    ensures !UniqueNonNull(s, OrderSid)
  {
    if a < b {
      assert OrderSid(s[a]).Some? && OrderSid(s[a]) == OrderSid(s[b]);
    } else {
      assert OrderSid(s[b]).Some? && OrderSid(s[b]) == OrderSid(s[a]);
    }
  }

  /** The same for orders (models.py:64 against main.py:199-202). */
  lemma CrossTenantOrderRefused(db: Database, tenantId: nat, os: seq<OrderJson>, i: nat, other: nat)
    requires i < |os| && other < |db.orders|
    requires os[i].id.Some? && db.orders[other].shopifyOrderId == os[i].id
    requires db.orders[other].tenantId != tenantId
    ensures !Unique(StageOrders(db, tenantId, os))
  {
    var prev := StageOrders(db, tenantId, os[..i]);
    var (d, oid) := UpsertOrderRow(prev, tenantId, os[i]);
    assert OrderKey(prev.orders[other]) == OrderKey(db.orders[other]);
    assert OrderKey(d.orders[other]) == OrderKey(db.orders[other]);
    OrdersClash(d.orders, FindOrder(d, os[i].id, tenantId).value, other);
    StageOrdersStep(db, tenantId, os, i);
    StageOrdersPrefixGrows(db, tenantId, os, i + 1);
    GrowsTransitive(d, StageOrders(db, tenantId, os[..i + 1]), StageOrders(db, tenantId, os));
    ViolationPersists(d, StageOrders(db, tenantId, os));
  }
}
