/**
 * The reconciliation of each endpoint as functions on the database value:
 * what one payload record stages (an upsert keyed by its external id) and
 * what a whole payload list stages, record after record. The methods of
 * `Ingest.Store` are proved to leave exactly these states behind.
 */
module Reconcile {
  import opened Wrappers
  import opened Models
  import opened Payload

  // ---------------------------------------------------------------------
  // Lookups (each a `query(...).filter(...).first()` of main.py)

  function FindTenant(db: Database, tenantId: int): Option<nat> { FindKey(db.tenants, TenantRowId, tenantId) }
  function FindCustomer(db: Database, sid: Option<int>, tenantId: nat): Option<nat> { FindKey(db.customers, CustomerKey, (sid, tenantId)) }
  function FindProduct(db: Database, sid: Option<int>, tenantId: nat): Option<nat> { FindKey(db.products, ProductKey, (sid, tenantId)) }
  function FindVariant(db: Database, sid: Option<int>): Option<nat> { FindKey(db.variants, VariantKey, sid) }
  function FindOrder(db: Database, sid: Option<int>, tenantId: nat): Option<nat> { FindKey(db.orders, OrderKey, (sid, tenantId)) }
  function FindLineItem(db: Database, orderId: nat, variantId: nat): Option<nat> { FindKey(db.lineItems, LineItemKey, (orderId, variantId)) }

  /** The tenant an ingestion runs for: the id of the row with that primary key, if any. */
  function ResolveTenant(db: Database, tenantId: int): (r: Option<nat>)
    ensures r.Some? <==> exists k :: 0 <= k < |db.tenants| && db.tenants[k].id == tenantId
    ensures r.Some? ==> r.value == tenantId && r.value in TenantIds(db)
  {
    match FindTenant(db, tenantId)
    case Some(k) => Some(db.tenants[k].id)
    case None => assert forall k :: 0 <= k < |db.tenants| ==> TenantRowId(db.tenants[k]) != tenantId; None
  }

  // ---------------------------------------------------------------------
  // Customers (main.py:60-85)

  function OverwriteCustomer(row: Customer, c: CustomerJson): Customer {
    row.(firstName := c.firstName, lastName := c.lastName, email := c.email, phone := c.phone)
  }

  function NewCustomer(id: nat, tenantId: nat, c: CustomerJson): Customer {
    Customer(id, tenantId, c.id, c.firstName, c.lastName, c.email, c.phone)
  }

  function UpsertCustomer(db: Database, tenantId: nat, c: CustomerJson): (r: Database)
    ensures Grows(db, r)
    ensures FindCustomer(r, c.id, tenantId).Some?
    ensures r.products == db.products && r.variants == db.variants
    ensures r.orders == db.orders && r.lineItems == db.lineItems
  {
    match FindCustomer(db, c.id, tenantId)
    case Some(k) =>
      var r := db.(customers := db.customers[k := OverwriteCustomer(db.customers[k], c)]);
      FindKeySameKeys(db.customers, r.customers, CustomerKey, (c.id, tenantId));
      r
    case None =>
      var r := db.(customers := db.customers + [NewCustomer(db.nextId, tenantId, c)], nextId := db.nextId + 1);
      FindKeyAppend(db.customers, NewCustomer(db.nextId, tenantId, c), CustomerKey, (c.id, tenantId));
      r
  }

  /** The customers a payload list stages, one upsert per record, in order. */
  function StageCustomers(db: Database, tenantId: nat, cs: seq<CustomerJson>): (r: Database)
    ensures Grows(db, r)
    ensures r.products == db.products && r.variants == db.variants
    ensures r.orders == db.orders && r.lineItems == db.lineItems
  {
    if |cs| == 0 then db
    else
      var prev := StageCustomers(db, tenantId, cs[..|cs| - 1]);
      GrowsTransitive(db, prev, UpsertCustomer(prev, tenantId, cs[|cs| - 1]));
      UpsertCustomer(prev, tenantId, cs[|cs| - 1])
  }

  // ---------------------------------------------------------------------
  // Products and their variants (main.py:109-159)

  function OverwriteProduct(row: Product, p: ProductJson): Product {
    row.(title := p.title, vendor := p.vendor, productType := p.productType)
  }

  function NewProduct(id: nat, tenantId: nat, p: ProductJson): Product {
    Product(id, tenantId, p.id, p.title, p.vendor, p.productType)
  }

  /**
   * The product row of a record, updated in place or staged new, and the
   * internal id its variants link to (for a new row, the id the flush at
   * main.py:131 assigns).
   */
  function UpsertProductRow(db: Database, tenantId: nat, p: ProductJson): (r: (Database, nat))
    ensures Grows(db, r.0)
    ensures r.1 in ProductIds(r.0)
    ensures FindProduct(r.0, p.id, tenantId).Some? && r.0.products[FindProduct(r.0, p.id, tenantId).value].id == r.1
    ensures FindProduct(db, p.id, tenantId).Some? && Unique(db) ==> Unique(r.0)
    ensures r.0.customers == db.customers && r.0.variants == db.variants
    ensures r.0.orders == db.orders && r.0.lineItems == db.lineItems
  {
    match FindProduct(db, p.id, tenantId)
    case Some(k) =>
      var d := db.(products := db.products[k := OverwriteProduct(db.products[k], p)]);
      FindKeySameKeys(db.products, d.products, ProductKey, (p.id, tenantId));
      (d, db.products[k].id)
    case None =>
      var d := db.(products := db.products + [NewProduct(db.nextId, tenantId, p)], nextId := db.nextId + 1);
      FindKeyAppend(db.products, NewProduct(db.nextId, tenantId, p), ProductKey, (p.id, tenantId));
      (d, db.nextId)
  }

  function OverwriteVariant(row: ProductVariant, v: VariantJson): ProductVariant {
    row.(title := v.title, price := v.price, sku := v.sku, weight := v.weight, weightUnit := v.weightUnit)
  }

  function NewVariant(id: nat, productId: nat, v: VariantJson): ProductVariant {
    ProductVariant(id, productId, v.id, v.title, v.price, v.sku, v.weight, v.weightUnit)
  }

  /**
   * One variant record, looked up by `shopify_variant_id` alone (no tenant).
   * The lookup is as wide as the unique constraint, so staging a variant can
   * never violate it.
   */
  function UpsertVariant(db: Database, productId: nat, v: VariantJson): (r: Database)
    ensures Grows(db, r)
    ensures FindVariant(r, v.id).Some?
    ensures Unique(db) ==> Unique(r)
    ensures r.tenants == db.tenants && r.customers == db.customers && r.products == db.products
    ensures r.orders == db.orders && r.lineItems == db.lineItems
  {
    match FindVariant(db, v.id)
    case Some(k) =>
      var d := db.(variants := db.variants[k := OverwriteVariant(db.variants[k], v)]);
      FindKeySameKeys(db.variants, d.variants, VariantKey, v.id);
      d
    case None =>
      var d := db.(variants := db.variants + [NewVariant(db.nextId, productId, v)], nextId := db.nextId + 1);
      FindKeyAppend(db.variants, NewVariant(db.nextId, productId, v), VariantKey, v.id);
      d
  }

  function StageVariants(db: Database, productId: nat, vs: seq<VariantJson>): (r: Database)
    ensures Grows(db, r)
    ensures Unique(db) ==> Unique(r)
    ensures r.tenants == db.tenants && r.customers == db.customers && r.products == db.products
    ensures r.orders == db.orders && r.lineItems == db.lineItems
  {
    if |vs| == 0 then db
    else
      var prev := StageVariants(db, productId, vs[..|vs| - 1]);
      GrowsTransitive(db, prev, UpsertVariant(prev, productId, vs[|vs| - 1]));
      UpsertVariant(prev, productId, vs[|vs| - 1])
  }

  /** One product record: its row, then its nested variants linked to it. */
  function UpsertProduct(db: Database, tenantId: nat, p: ProductJson): (r: Database)
    ensures Grows(db, r)
    ensures r.customers == db.customers && r.orders == db.orders && r.lineItems == db.lineItems
  {
    var (d, pid) := UpsertProductRow(db, tenantId, p);
    GrowsTransitive(db, d, StageVariants(d, pid, p.variants));
    StageVariants(d, pid, p.variants)
  }

  /** The products (and variants) a payload list stages, in order. */
  function StageProducts(db: Database, tenantId: nat, ps: seq<ProductJson>): (r: Database)
    ensures Grows(db, r)
    ensures r.customers == db.customers && r.orders == db.orders && r.lineItems == db.lineItems
  {
    if |ps| == 0 then db
    else
      var prev := StageProducts(db, tenantId, ps[..|ps| - 1]);
      GrowsTransitive(db, prev, UpsertProduct(prev, tenantId, ps[|ps| - 1]));
      UpsertProduct(prev, tenantId, ps[|ps| - 1])
  }

  // ---------------------------------------------------------------------
  // Orders and their line items (main.py:183-245)

  /**
   * The customer link of an order (main.py:187-196): the internal id of the
   * tenant's customer with the embedded external id, else null. An absent,
   * null or empty `customer` object is skipped.
   */
  function ResolveCustomer(db: Database, tenantId: nat, ref: Option<CustomerRef>): (r: Option<nat>)
    ensures r.Some? <==>
      ref.Some? && ref.value.CustomerObject? &&
      exists k :: 0 <= k < |db.customers| && CustomerKey(db.customers[k]) == (ref.value.id, tenantId)
    ensures r.Some? ==>
      exists k :: 0 <= k < |db.customers| && CustomerKey(db.customers[k]) == (ref.value.id, tenantId) &&
                  db.customers[k].id == r.value
  {
    match ref
    case Some(CustomerObject(sid)) =>
      (match FindCustomer(db, sid, tenantId)
       case Some(k) => Some(db.customers[k].id)
       case None => None)
    case _ => None
  }

  lemma ResolvedCustomerExists(db: Database, tenantId: nat, ref: Option<CustomerRef>)
    ensures ResolveCustomer(db, tenantId, ref).Some? ==> ResolveCustomer(db, tenantId, ref).value in CustomerIds(db)
  {
  }

  function OverwriteOrder(row: Order, o: OrderJson, customerId: Option<nat>): Order {
    row.(totalPrice := o.totalPrice, currency := o.currency, customerId := customerId)
  }

  function NewOrder(id: nat, tenantId: nat, customerId: Option<nat>, o: OrderJson): Order {
    Order(id, tenantId, customerId, o.id, o.totalPrice, o.currency)
  }

  /** The order row of a record and the internal id its line items link to. */
  function UpsertOrderRow(db: Database, tenantId: nat, o: OrderJson): (r: (Database, nat))
    ensures Grows(db, r.0)
    ensures r.1 in OrderIds(r.0)
    ensures FindOrder(r.0, o.id, tenantId).Some? && r.0.orders[FindOrder(r.0, o.id, tenantId).value].id == r.1
    ensures FindOrder(db, o.id, tenantId).Some? && Unique(db) ==> Unique(r.0)
    ensures r.0.customers == db.customers && r.0.products == db.products && r.0.variants == db.variants
    ensures r.0.lineItems == db.lineItems
  {
    var cid := ResolveCustomer(db, tenantId, o.customer);
    ResolvedCustomerExists(db, tenantId, o.customer);
    match FindOrder(db, o.id, tenantId)
    case Some(k) =>
      var d := db.(orders := db.orders[k := OverwriteOrder(db.orders[k], o, cid)]);
      FindKeySameKeys(db.orders, d.orders, OrderKey, (o.id, tenantId));
      (d, db.orders[k].id)
    case None =>
      var d := db.(orders := db.orders + [NewOrder(db.nextId, tenantId, cid, o)], nextId := db.nextId + 1);
      FindKeyAppend(db.orders, NewOrder(db.nextId, tenantId, cid, o), OrderKey, (o.id, tenantId));
      (d, db.nextId)
  }

  function OverwriteLineItem(row: OrderLineItem, li: LineItemJson): OrderLineItem {
    row.(quantity := li.quantity, price := li.price)
  }

  function NewLineItem(id: nat, orderId: nat, variantId: nat, li: LineItemJson): OrderLineItem {
    OrderLineItem(id, orderId, variantId, li.quantity, li.price)
  }

  /**
   * One line-item record (main.py:224-245): skipped when its variant is
   * unknown, else upserted by (order id, variant id).
   */
  function UpsertLineItem(db: Database, orderId: nat, li: LineItemJson): (r: Database)
    ensures Grows(db, r)
    ensures FindVariant(db, li.variantId).Some? ==>
      FindLineItem(r, orderId, db.variants[FindVariant(db, li.variantId).value].id).Some?
    ensures LineItemPairsUnique(db) ==> LineItemPairsUnique(r)
    ensures r.(lineItems := db.lineItems, nextId := db.nextId) == db
  {
    match FindVariant(db, li.variantId)
    case None => db
    case Some(v) =>
      var vid := db.variants[v].id;
      match FindLineItem(db, orderId, vid)
      case Some(k) =>
        var d := db.(lineItems := db.lineItems[k := OverwriteLineItem(db.lineItems[k], li)]);
        FindKeySameKeys(db.lineItems, d.lineItems, LineItemKey, (orderId, vid));
        d
      case None =>
        var d := db.(lineItems := db.lineItems + [NewLineItem(db.nextId, orderId, vid, li)], nextId := db.nextId + 1);
        FindKeyAppend(db.lineItems, NewLineItem(db.nextId, orderId, vid, li), LineItemKey, (orderId, vid));
        d
  }

  function StageLineItems(db: Database, orderId: nat, lis: seq<LineItemJson>): (r: Database)
    ensures Grows(db, r)
    ensures LineItemPairsUnique(db) ==> LineItemPairsUnique(r)
    ensures r.(lineItems := db.lineItems, nextId := db.nextId) == db
  {
    if |lis| == 0 then db
    else
      var prev := StageLineItems(db, orderId, lis[..|lis| - 1]);
      GrowsTransitive(db, prev, UpsertLineItem(prev, orderId, lis[|lis| - 1]));
      UpsertLineItem(prev, orderId, lis[|lis| - 1])
  }

  /** One order record: its customer link, its row, then its line items. */
  function UpsertOrder(db: Database, tenantId: nat, o: OrderJson): (r: Database)
    ensures Grows(db, r)
    ensures LineItemPairsUnique(db) ==> LineItemPairsUnique(r)
    ensures r.customers == db.customers && r.products == db.products && r.variants == db.variants
  {
    var (d, oid) := UpsertOrderRow(db, tenantId, o);
    GrowsTransitive(db, d, StageLineItems(d, oid, o.lineItems));
    StageLineItems(d, oid, o.lineItems)
  }

  /** The orders (and line items) a payload list stages, in order. */
  function StageOrders(db: Database, tenantId: nat, os: seq<OrderJson>): (r: Database)
    ensures Grows(db, r)
    ensures LineItemPairsUnique(db) ==> LineItemPairsUnique(r)
    ensures r.customers == db.customers && r.products == db.products && r.variants == db.variants
  {
    if |os| == 0 then db
    else
      var prev := StageOrders(db, tenantId, os[..|os| - 1]);
      GrowsTransitive(db, prev, UpsertOrder(prev, tenantId, os[|os| - 1]));
      UpsertOrder(prev, tenantId, os[|os| - 1])
  }

  // ---------------------------------------------------------------------
  // Staging never breaks a foreign key or a primary key.

  lemma UpsertCustomerWellFormed(db: Database, tenantId: nat, c: CustomerJson)
    requires WellFormed(db) && tenantId in TenantIds(db)
    ensures WellFormed(UpsertCustomer(db, tenantId, c))
  {
    var r := UpsertCustomer(db, tenantId, c);
    GrowsKeepsCustomerLinks(db, r);
    GrowsStaysWellFormed(db, r);
  }

  lemma {:induction false} StageCustomersWellFormed(db: Database, tenantId: nat, cs: seq<CustomerJson>)
    requires WellFormed(db) && tenantId in TenantIds(db)
    ensures WellFormed(StageCustomers(db, tenantId, cs))
  {
    if |cs| > 0 {
      var prev := StageCustomers(db, tenantId, cs[..|cs| - 1]);
      StageCustomersWellFormed(db, tenantId, cs[..|cs| - 1]);
      UpsertCustomerWellFormed(prev, tenantId, cs[|cs| - 1]);
    }
  }

  lemma UpsertProductRowWellFormed(db: Database, tenantId: nat, p: ProductJson)
    requires WellFormed(db) && tenantId in TenantIds(db)
    ensures WellFormed(UpsertProductRow(db, tenantId, p).0)
  {
    var r := UpsertProductRow(db, tenantId, p).0;
    GrowsKeepsCustomerLinks(db, r);
    GrowsStaysWellFormed(db, r);
  }

  lemma UpsertVariantWellFormed(db: Database, productId: nat, v: VariantJson)
    requires WellFormed(db) && productId in ProductIds(db)
    ensures WellFormed(UpsertVariant(db, productId, v))
  {
    var r := UpsertVariant(db, productId, v);
    GrowsKeepsCustomerLinks(db, r);
    GrowsStaysWellFormed(db, r);
  }

  lemma {:induction false} StageVariantsWellFormed(db: Database, productId: nat, vs: seq<VariantJson>)
    requires WellFormed(db) && productId in ProductIds(db)
    ensures WellFormed(StageVariants(db, productId, vs))
  {
    if |vs| > 0 {
      var prev := StageVariants(db, productId, vs[..|vs| - 1]);
      StageVariantsWellFormed(db, productId, vs[..|vs| - 1]);
      UpsertVariantWellFormed(prev, productId, vs[|vs| - 1]);
    }
  }

  lemma UpsertProductWellFormed(db: Database, tenantId: nat, p: ProductJson)
    requires WellFormed(db) && tenantId in TenantIds(db)
    ensures WellFormed(UpsertProduct(db, tenantId, p))
  {
    var (d, pid) := UpsertProductRow(db, tenantId, p);
    UpsertProductRowWellFormed(db, tenantId, p);
    StageVariantsWellFormed(d, pid, p.variants);
  }

  lemma {:induction false} StageProductsWellFormed(db: Database, tenantId: nat, ps: seq<ProductJson>)
    requires WellFormed(db) && tenantId in TenantIds(db)
    ensures WellFormed(StageProducts(db, tenantId, ps))
  {
    if |ps| > 0 {
      var prev := StageProducts(db, tenantId, ps[..|ps| - 1]);
      StageProductsWellFormed(db, tenantId, ps[..|ps| - 1]);
      UpsertProductWellFormed(prev, tenantId, ps[|ps| - 1]);
    }
  }

  lemma UpsertOrderRowWellFormed(db: Database, tenantId: nat, o: OrderJson)
    requires WellFormed(db) && tenantId in TenantIds(db)
    ensures WellFormed(UpsertOrderRow(db, tenantId, o).0)
  {
    var r := UpsertOrderRow(db, tenantId, o).0;
    ResolvedCustomerExists(db, tenantId, o.customer);
    GrowsKeepsIds(db, r);
    GrowsStaysWellFormed(db, r);
  }

  lemma UpsertLineItemWellFormed(db: Database, orderId: nat, li: LineItemJson)
    requires WellFormed(db) && orderId in OrderIds(db)
    ensures WellFormed(UpsertLineItem(db, orderId, li))
  {
    var r := UpsertLineItem(db, orderId, li);
    GrowsKeepsCustomerLinks(db, r);
    GrowsStaysWellFormed(db, r);
  }

  lemma {:induction false} StageLineItemsWellFormed(db: Database, orderId: nat, lis: seq<LineItemJson>)
    requires WellFormed(db) && orderId in OrderIds(db)
    ensures WellFormed(StageLineItems(db, orderId, lis))
  {
    if |lis| > 0 {
      var prev := StageLineItems(db, orderId, lis[..|lis| - 1]);
      StageLineItemsWellFormed(db, orderId, lis[..|lis| - 1]);
      UpsertLineItemWellFormed(prev, orderId, lis[|lis| - 1]);
    }
  }

  lemma UpsertOrderWellFormed(db: Database, tenantId: nat, o: OrderJson)
    requires WellFormed(db) && tenantId in TenantIds(db)
    ensures WellFormed(UpsertOrder(db, tenantId, o))
  {
    var (d, oid) := UpsertOrderRow(db, tenantId, o);
    UpsertOrderRowWellFormed(db, tenantId, o);
    StageLineItemsWellFormed(d, oid, o.lineItems);
  }

  lemma {:induction false} StageOrdersWellFormed(db: Database, tenantId: nat, os: seq<OrderJson>)
    requires WellFormed(db) && tenantId in TenantIds(db)
    ensures WellFormed(StageOrders(db, tenantId, os))
  {
    if |os| > 0 {
      var prev := StageOrders(db, tenantId, os[..|os| - 1]);
      StageOrdersWellFormed(db, tenantId, os[..|os| - 1]);
      UpsertOrderWellFormed(prev, tenantId, os[|os| - 1]);
    }
  }

  // ---------------------------------------------------------------------
  // A prefix of a payload stages a state the whole payload only grows.

  lemma StageCustomersPrefixGrows(db: Database, tenantId: nat, cs: seq<CustomerJson>, i: nat)
    requires i <= |cs|
    ensures Grows(StageCustomers(db, tenantId, cs[..i]), StageCustomers(db, tenantId, cs))
  {
    var chain := seq(|cs| + 1, k requires 0 <= k <= |cs| => StageCustomers(db, tenantId, cs[..k]));
    forall k | 0 <= k < |chain| - 1 ensures Grows(chain[k], chain[k + 1]) {
      StageCustomersOneMoreGrows(db, tenantId, cs, k + 1);
    }
    ChainGrows(chain, i, |cs|);
    assert cs[..|cs|] == cs;
  }

  lemma StageCustomersOneMoreGrows(db: Database, tenantId: nat, cs: seq<CustomerJson>, j: nat)
    requires 0 < j <= |cs|
    ensures Grows(StageCustomers(db, tenantId, cs[..j - 1]), StageCustomers(db, tenantId, cs[..j]))
  {
    assert cs[..j][..j - 1] == cs[..j - 1];
  }

  lemma StageProductsPrefixGrows(db: Database, tenantId: nat, ps: seq<ProductJson>, i: nat)
    requires i <= |ps|
    ensures Grows(StageProducts(db, tenantId, ps[..i]), StageProducts(db, tenantId, ps))
  {
    var chain := seq(|ps| + 1, k requires 0 <= k <= |ps| => StageProducts(db, tenantId, ps[..k]));
    forall k | 0 <= k < |chain| - 1 ensures Grows(chain[k], chain[k + 1]) {
      StageProductsOneMoreGrows(db, tenantId, ps, k + 1);
    }
    ChainGrows(chain, i, |ps|);
    assert ps[..|ps|] == ps;
  }

  lemma StageProductsOneMoreGrows(db: Database, tenantId: nat, ps: seq<ProductJson>, j: nat)
    requires 0 < j <= |ps|
    ensures Grows(StageProducts(db, tenantId, ps[..j - 1]), StageProducts(db, tenantId, ps[..j]))
  {
    assert ps[..j][..j - 1] == ps[..j - 1];
  }

  lemma StageOrdersPrefixGrows(db: Database, tenantId: nat, os: seq<OrderJson>, i: nat)
    requires i <= |os|
    ensures Grows(StageOrders(db, tenantId, os[..i]), StageOrders(db, tenantId, os))
  {
    var chain := seq(|os| + 1, k requires 0 <= k <= |os| => StageOrders(db, tenantId, os[..k]));
    forall k | 0 <= k < |chain| - 1 ensures Grows(chain[k], chain[k + 1]) {
      StageOrdersOneMoreGrows(db, tenantId, os, k + 1);
    }
    ChainGrows(chain, i, |os|);
    assert os[..|os|] == os;
  }

  lemma StageOrdersOneMoreGrows(db: Database, tenantId: nat, os: seq<OrderJson>, j: nat)
    requires 0 < j <= |os|
    ensures Grows(StageOrders(db, tenantId, os[..j - 1]), StageOrders(db, tenantId, os[..j]))
  {
    assert os[..j][..j - 1] == os[..j - 1];
  }

  // ---------------------------------------------------------------------
  // One more record of a payload is one more upsert.

  lemma StageCustomersStep(db: Database, tenantId: nat, cs: seq<CustomerJson>, i: nat)
    requires i < |cs|
    ensures StageCustomers(db, tenantId, cs[..i + 1]) == UpsertCustomer(StageCustomers(db, tenantId, cs[..i]), tenantId, cs[i])
  {
    assert cs[..i + 1][..i] == cs[..i];
  }

  lemma StageVariantsStep(db: Database, productId: nat, vs: seq<VariantJson>, i: nat)
    requires i < |vs|
    ensures StageVariants(db, productId, vs[..i + 1]) == UpsertVariant(StageVariants(db, productId, vs[..i]), productId, vs[i])
  {
    assert vs[..i + 1][..i] == vs[..i];
  }

  lemma StageProductsStep(db: Database, tenantId: nat, ps: seq<ProductJson>, i: nat)
    requires i < |ps|
    ensures StageProducts(db, tenantId, ps[..i + 1]) == UpsertProduct(StageProducts(db, tenantId, ps[..i]), tenantId, ps[i])
  {
    assert ps[..i + 1][..i] == ps[..i];
  }

  lemma StageLineItemsStep(db: Database, orderId: nat, lis: seq<LineItemJson>, i: nat)
    requires i < |lis|
    ensures StageLineItems(db, orderId, lis[..i + 1]) == UpsertLineItem(StageLineItems(db, orderId, lis[..i]), orderId, lis[i])
  {
    assert lis[..i + 1][..i] == lis[..i];
  }

  lemma StageOrdersStep(db: Database, tenantId: nat, os: seq<OrderJson>, i: nat)
    requires i < |os|
    ensures StageOrders(db, tenantId, os[..i + 1]) == UpsertOrder(StageOrders(db, tenantId, os[..i]), tenantId, os[i])
  {
    assert os[..i + 1][..i] == os[..i];
  }

  // ---------------------------------------------------------------------
  // A violation sent by the flush after a new product or order row stays
  // in everything the rest of the payload would stage.

  lemma ProductRowViolationPersists(db: Database, tenantId: nat, ps: seq<ProductJson>, i: nat)
    requires i < |ps|
    requires !Unique(UpsertProductRow(StageProducts(db, tenantId, ps[..i]), tenantId, ps[i]).0)
    ensures !Unique(StageProducts(db, tenantId, ps))
  {
    var prev := StageProducts(db, tenantId, ps[..i]);
    var (d, pid) := UpsertProductRow(prev, tenantId, ps[i]);
    StageProductsStep(db, tenantId, ps, i);
    StageProductsPrefixGrows(db, tenantId, ps, i + 1);
    GrowsTransitive(d, StageProducts(db, tenantId, ps[..i + 1]), StageProducts(db, tenantId, ps));
    ViolationPersists(d, StageProducts(db, tenantId, ps));
  }

  lemma OrderRowViolationPersists(db: Database, tenantId: nat, os: seq<OrderJson>, i: nat)
    requires i < |os|
    requires !Unique(UpsertOrderRow(StageOrders(db, tenantId, os[..i]), tenantId, os[i]).0)
    ensures !Unique(StageOrders(db, tenantId, os))
  {
    var prev := StageOrders(db, tenantId, os[..i]);
    var (d, oid) := UpsertOrderRow(prev, tenantId, os[i]);
    StageOrdersStep(db, tenantId, os, i);
    StageOrdersPrefixGrows(db, tenantId, os, i + 1);
    GrowsTransitive(d, StageOrders(db, tenantId, os[..i + 1]), StageOrders(db, tenantId, os));
    ViolationPersists(d, StageOrders(db, tenantId, os));
  }
}
