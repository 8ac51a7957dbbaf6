/**
 * The multi-tenant relational schema: one datatype per table row, the
 * whole database as a value, the lookup keys the ingestion uses, and the
 * constraints the database enforces (unique columns, foreign keys,
 * primary keys).
 */
module Models {
  import opened Wrappers

  /** A DECIMAL(10,2) column value, held exactly as a whole number of hundredths. */
  type Fixed2 = int

  datatype Tenant = Tenant(id: nat, shopName: string, accessToken: string)

  datatype Customer = Customer(
    id: nat, tenantId: nat, shopifyCustomerId: Option<int>,
    firstName: Option<string>, lastName: Option<string>,
    email: Option<string>, phone: Option<string>)

  datatype Product = Product(
    id: nat, tenantId: nat, shopifyProductId: Option<int>,
    title: Option<string>, vendor: Option<string>, productType: Option<string>)

  datatype ProductVariant = ProductVariant(
    id: nat, productId: nat, shopifyVariantId: Option<int>,
    title: Option<string>, price: Option<Fixed2>, sku: Option<string>,
    weight: Option<Fixed2>, weightUnit: Option<string>)

  datatype Order = Order(
    id: nat, tenantId: nat, customerId: Option<nat>, shopifyOrderId: Option<int>,
    totalPrice: Option<Fixed2>, currency: Option<string>)

  datatype OrderLineItem = OrderLineItem(
    id: nat, orderId: nat, variantId: nat, quantity: Option<int>, price: Option<Fixed2>)

  /**
   * All six tables, each in insertion order, and the next primary key the
   * database hands out. One counter serves every table: keys only need to
   * be fresh within their own table.
   */
  datatype Database = Database(
    tenants: seq<Tenant>, customers: seq<Customer>, products: seq<Product>,
    variants: seq<ProductVariant>, orders: seq<Order>, lineItems: seq<OrderLineItem>,
    nextId: nat)

  // ---------------------------------------------------------------------
  // Lookup keys: the columns each query of the ingestion filters on.

  function TenantRowId(t: Tenant): int { t.id }
  function TenantShop(t: Tenant): string { t.shopName }
  function CustomerKey(c: Customer): (Option<int>, nat) { (c.shopifyCustomerId, c.tenantId) }
  function ProductKey(p: Product): (Option<int>, nat) { (p.shopifyProductId, p.tenantId) }
  function VariantKey(v: ProductVariant): Option<int> { v.shopifyVariantId }
  function OrderKey(o: Order): (Option<int>, nat) { (o.shopifyOrderId, o.tenantId) }
  function LineItemKey(l: OrderLineItem): (nat, nat) { (l.orderId, l.variantId) }

  /**
   * The row a `query(...).filter(...).first()` returns: the first row, in
   * insertion order, whose key equals `k`. A filter `column == None` is SQL
   * `IS NULL`, so a `None` key matches rows whose column is null.
   */
  function FindKey<T, K(==)>(s: seq<T>, key: T -> K, k: K): (r: Option<nat>)
    ensures r.Some? ==> r.value < |s| && key(s[r.value]) == k
    ensures r.Some? ==> forall j :: 0 <= j < r.value ==> key(s[j]) != k
    ensures r.None? ==> forall j :: 0 <= j < |s| ==> key(s[j]) != k
  {
    if |s| == 0 then None
    else match FindKey(s[..|s| - 1], key, k)
      case Some(j) => Some(j)
      case None => if key(s[|s| - 1]) == k then Some(|s| - 1) else None
  }

  /** A lookup is decided by the keys alone: two tables with the same keys answer alike. */
  lemma FindKeySameKeys<T, K>(s: seq<T>, s': seq<T>, key: T -> K, k: K)
    requires |s| == |s'|
    requires forall j :: 0 <= j < |s| ==> key(s'[j]) == key(s[j])
    ensures FindKey(s', key, k) == FindKey(s, key, k)
  {
  }

  /** A row that was found stays the one found when rows are only appended and keys kept. */
  lemma FindKeyStable<T, K>(s: seq<T>, s': seq<T>, key: T -> K, k: K)
    requires |s| <= |s'|
    requires forall j :: 0 <= j < |s| ==> key(s'[j]) == key(s[j])
    requires FindKey(s, key, k).Some?
    ensures FindKey(s', key, k) == FindKey(s, key, k)
  {
  }

  /** A key absent from a table is found at the row appended with that key. */
  lemma FindKeyAppend<T, K>(s: seq<T>, x: T, key: T -> K, k: K)
    requires FindKey(s, key, k).None?
    ensures FindKey(s + [x], key, k) == if key(x) == k then Some(|s|) else None
  {
    assert (s + [x])[..|s + [x]| - 1] == s;
  }

  // ---------------------------------------------------------------------
  // Constraints the database enforces.

  function CustomerSid(c: Customer): Option<int> { c.shopifyCustomerId }
  function ProductSid(p: Product): Option<int> { p.shopifyProductId }
  function VariantSid(v: ProductVariant): Option<int> { v.shopifyVariantId }
  function OrderSid(o: Order): Option<int> { o.shopifyOrderId }

  /** A `unique=True` column: no two rows share a non-null value (nulls never clash). */
  predicate UniqueNonNull<T>(s: seq<T>, col: T -> Option<int>) {
    forall i, j :: 0 <= i < j < |s| && col(s[i]).Some? ==> col(s[i]) != col(s[j])
  }

  /** `tenants.shop_name` is unique; the shop name is always given, so never null. */
  predicate UniqueShopNames(ts: seq<Tenant>) {
    forall i, j :: 0 <= i < j < |ts| ==> ts[i].shopName != ts[j].shopName
  }

  /**
   * Every `unique=True` column of the schema. None is per tenant: the
   * external ids are unique across all tenants.
   */
  predicate Unique(db: Database) {
    && UniqueShopNames(db.tenants)
    && UniqueNonNull(db.customers, CustomerSid)
    && UniqueNonNull(db.products, ProductSid)
    && UniqueNonNull(db.variants, VariantSid)
    && UniqueNonNull(db.orders, OrderSid)
  }

  function TenantIds(db: Database): set<nat> { set i | 0 <= i < |db.tenants| :: db.tenants[i].id }
  function CustomerIds(db: Database): set<nat> { set i | 0 <= i < |db.customers| :: db.customers[i].id }
  function ProductIds(db: Database): set<nat> { set i | 0 <= i < |db.products| :: db.products[i].id }
  function VariantIds(db: Database): set<nat> { set i | 0 <= i < |db.variants| :: db.variants[i].id }
  function OrderIds(db: Database): set<nat> { set i | 0 <= i < |db.orders| :: db.orders[i].id }

  // Primary keys are handed out by the counter (so each is below it) and are
  // distinct within their table; each foreign-key column names an existing
  // row of the table it references (`orders.customer_id` may be null).

  ghost predicate TenantsWellFormed(db: Database) {
    && (forall i :: 0 <= i < |db.tenants| ==> db.tenants[i].id < db.nextId)
    && (forall i, j :: 0 <= i < j < |db.tenants| ==> db.tenants[i].id != db.tenants[j].id)
  }

  ghost predicate CustomersWellFormed(db: Database) {
    && (forall i :: 0 <= i < |db.customers| ==>
          db.customers[i].id < db.nextId && db.customers[i].tenantId in TenantIds(db))
    && (forall i, j :: 0 <= i < j < |db.customers| ==> db.customers[i].id != db.customers[j].id)
  }

  ghost predicate ProductsWellFormed(db: Database) {
    && (forall i :: 0 <= i < |db.products| ==>
          db.products[i].id < db.nextId && db.products[i].tenantId in TenantIds(db))
    && (forall i, j :: 0 <= i < j < |db.products| ==> db.products[i].id != db.products[j].id)
  }

  ghost predicate VariantsWellFormed(db: Database) {
    && (forall i :: 0 <= i < |db.variants| ==>
          db.variants[i].id < db.nextId && db.variants[i].productId in ProductIds(db))
    && (forall i, j :: 0 <= i < j < |db.variants| ==> db.variants[i].id != db.variants[j].id)
  }

  ghost predicate OrdersWellFormed(db: Database) {
    && (forall i :: 0 <= i < |db.orders| ==>
          db.orders[i].id < db.nextId && db.orders[i].tenantId in TenantIds(db))
    && (forall i :: 0 <= i < |db.orders| && db.orders[i].customerId.Some? ==>
          db.orders[i].customerId.value in CustomerIds(db))
    && (forall i, j :: 0 <= i < j < |db.orders| ==> db.orders[i].id != db.orders[j].id)
  }

  ghost predicate LineItemsWellFormed(db: Database) {
    && (forall i :: 0 <= i < |db.lineItems| ==>
          db.lineItems[i].id < db.nextId && db.lineItems[i].orderId in OrderIds(db) &&
          db.lineItems[i].variantId in VariantIds(db))
    && (forall i, j :: 0 <= i < j < |db.lineItems| ==> db.lineItems[i].id != db.lineItems[j].id)
  }

  /** The constraints other than uniqueness; the ingestion never breaks these. */
  ghost predicate WellFormed(db: Database) {
    && TenantsWellFormed(db) && CustomersWellFormed(db) && ProductsWellFormed(db)
    && VariantsWellFormed(db) && OrdersWellFormed(db) && LineItemsWellFormed(db)
  }

  /**
   * At most one line item per (order, variant). The schema does NOT declare
   * this; it holds only because the order ingestion looks the pair up first.
   */
  predicate LineItemPairsUnique(db: Database) {
    forall i, j :: 0 <= i < j < |db.lineItems| ==>
      LineItemKey(db.lineItems[i]) != LineItemKey(db.lineItems[j])
  }

  // ---------------------------------------------------------------------
  // How an ingestion changes the database: tenants untouched, rows only
  // appended, and every existing row keeps its primary key and its lookup key.

  ghost predicate Grows(a: Database, b: Database) {
    && b.tenants == a.tenants
    && a.nextId <= b.nextId
    && |a.customers| <= |b.customers|
    && (forall k :: 0 <= k < |a.customers| ==>
          b.customers[k].id == a.customers[k].id && CustomerKey(b.customers[k]) == CustomerKey(a.customers[k]))
    && |a.products| <= |b.products|
    && (forall k :: 0 <= k < |a.products| ==>
          b.products[k].id == a.products[k].id && ProductKey(b.products[k]) == ProductKey(a.products[k]))
    && |a.variants| <= |b.variants|
    && (forall k :: 0 <= k < |a.variants| ==>
          b.variants[k].id == a.variants[k].id && VariantKey(b.variants[k]) == VariantKey(a.variants[k]) &&
          b.variants[k].productId == a.variants[k].productId)
    && |a.orders| <= |b.orders|
    && (forall k :: 0 <= k < |a.orders| ==>
          b.orders[k].id == a.orders[k].id && OrderKey(b.orders[k]) == OrderKey(a.orders[k]))
    && |a.lineItems| <= |b.lineItems|
    && (forall k :: 0 <= k < |a.lineItems| ==>
          b.lineItems[k].id == a.lineItems[k].id && LineItemKey(b.lineItems[k]) == LineItemKey(a.lineItems[k]))
  }

  /** Growing keeps every primary key, so no foreign key loses its target. */
  lemma GrowsKeepsIds(a: Database, b: Database)
    requires Grows(a, b)
    ensures TenantIds(a) <= TenantIds(b) && CustomerIds(a) <= CustomerIds(b)
    ensures ProductIds(a) <= ProductIds(b) && VariantIds(a) <= VariantIds(b)
    ensures OrderIds(a) <= OrderIds(b)
  {
    forall x | x in CustomerIds(a) ensures x in CustomerIds(b) {
      var i :| 0 <= i < |a.customers| && a.customers[i].id == x;
      assert b.customers[i].id == x;
    }
    forall x | x in ProductIds(a) ensures x in ProductIds(b) {
      var i :| 0 <= i < |a.products| && a.products[i].id == x;
      assert b.products[i].id == x;
    }
    forall x | x in VariantIds(a) ensures x in VariantIds(b) {
      var i :| 0 <= i < |a.variants| && a.variants[i].id == x;
      assert b.variants[i].id == x;
    }
    forall x | x in OrderIds(a) ensures x in OrderIds(b) {
      var i :| 0 <= i < |a.orders| && a.orders[i].id == x;
      assert b.orders[i].id == x;
    }
  }

  lemma GrowsTransitive(a: Database, b: Database, c: Database)
    requires Grows(a, b) && Grows(b, c)
    ensures Grows(a, c)
  {
  }

  /** Along a chain of states each growing into the next, every state grows into every later one. */
  lemma {:induction false} ChainGrows(chain: seq<Database>, i: nat, j: nat)
    requires i <= j < |chain|
    requires forall k :: 0 <= k < |chain| - 1 ==> Grows(chain[k], chain[k + 1])
    ensures Grows(chain[i], chain[j])
    decreases j - i
  {
    if i < j {
      ChainGrows(chain, i, j - 1);
      GrowsTransitive(chain[i], chain[j - 1], chain[j]);
    }
  }

  /** A unique-constraint violation is never repaired by growing the database. */
  lemma {:induction false} ViolationPersists(a: Database, b: Database)
    requires Grows(a, b) && !Unique(a)
    ensures !Unique(b)
  {
    if !UniqueNonNull(a.customers, CustomerSid) {
      forall k | 0 <= k < |a.customers| ensures CustomerSid(b.customers[k]) == CustomerSid(a.customers[k]) {
        assert CustomerKey(b.customers[k]) == CustomerKey(a.customers[k]);
      }
      ClashPersists(a.customers, b.customers, CustomerSid);
    } else if !UniqueNonNull(a.products, ProductSid) {
      forall k | 0 <= k < |a.products| ensures ProductSid(b.products[k]) == ProductSid(a.products[k]) {
        assert ProductKey(b.products[k]) == ProductKey(a.products[k]);
      }
      ClashPersists(a.products, b.products, ProductSid);
    } else if !UniqueNonNull(a.variants, VariantSid) {
      ClashPersists(a.variants, b.variants, VariantSid);
    } else if !UniqueNonNull(a.orders, OrderSid) {
      forall k | 0 <= k < |a.orders| ensures OrderSid(b.orders[k]) == OrderSid(a.orders[k]) {
        assert OrderKey(b.orders[k]) == OrderKey(a.orders[k]);
      }
      ClashPersists(a.orders, b.orders, OrderSid);
    }
  }

  /** Two rows that share a value keep sharing it while rows keep their column and are only appended. */
  lemma ClashPersists<T>(a: seq<T>, b: seq<T>, col: T -> Option<int>)
    requires |a| <= |b| && (forall k :: 0 <= k < |a| ==> col(b[k]) == col(a[k]))
    requires !UniqueNonNull(a, col)
    ensures !UniqueNonNull(b, col)
  {
    var i, j :| 0 <= i < j < |a| && col(a[i]).Some? && col(a[i]) == col(a[j]);
    assert col(b[i]) == col(a[i]) && col(b[j]) == col(a[j]);
  }

  // Growing by at most one row per table keeps each table well formed,
  // given that a new row takes the old counter value and references rows
  // that exist. One lemma per table keeps each proof small.

  lemma TenantsGrowWellFormed(a: Database, b: Database)
    requires Grows(a, b) && TenantsWellFormed(a)
    ensures TenantsWellFormed(b)
  {
  }

  lemma CustomersGrowWellFormed(a: Database, b: Database)
    requires Grows(a, b) && CustomersWellFormed(a)
    requires |b.customers| == |a.customers| ||
      (|b.customers| == |a.customers| + 1 && b.customers[|a.customers|].id == a.nextId < b.nextId &&
       b.customers[|a.customers|].tenantId in TenantIds(b))
    ensures CustomersWellFormed(b)
  {
    GrowsKeepsIds(a, b);
    forall i | 0 <= i < |a.customers| ensures b.customers[i].tenantId in TenantIds(b) {
      assert CustomerKey(b.customers[i]) == CustomerKey(a.customers[i]);
    }
  }

  lemma ProductsGrowWellFormed(a: Database, b: Database)
    requires Grows(a, b) && ProductsWellFormed(a)
    requires |b.products| == |a.products| ||
      (|b.products| == |a.products| + 1 && b.products[|a.products|].id == a.nextId < b.nextId &&
       b.products[|a.products|].tenantId in TenantIds(b))
    ensures ProductsWellFormed(b)
  {
    GrowsKeepsIds(a, b);
    forall i | 0 <= i < |a.products| ensures b.products[i].tenantId in TenantIds(b) {
      assert ProductKey(b.products[i]) == ProductKey(a.products[i]);
    }
  }

  lemma VariantsGrowWellFormed(a: Database, b: Database)
    requires Grows(a, b) && VariantsWellFormed(a)
    requires |b.variants| == |a.variants| ||
      (|b.variants| == |a.variants| + 1 && b.variants[|a.variants|].id == a.nextId < b.nextId &&
       b.variants[|a.variants|].productId in ProductIds(b))
    ensures VariantsWellFormed(b)
  {
    GrowsKeepsIds(a, b);
  }

  lemma OrdersGrowWellFormed(a: Database, b: Database)
    requires Grows(a, b) && OrdersWellFormed(a)
    requires |b.orders| == |a.orders| ||
      (|b.orders| == |a.orders| + 1 && b.orders[|a.orders|].id == a.nextId < b.nextId &&
       b.orders[|a.orders|].tenantId in TenantIds(b))
    requires forall i :: 0 <= i < |b.orders| && b.orders[i].customerId.Some? ==>
      b.orders[i].customerId.value in CustomerIds(b)
    ensures OrdersWellFormed(b)
  {
    GrowsKeepsIds(a, b);
    forall i | 0 <= i < |a.orders| ensures b.orders[i].tenantId in TenantIds(b) {
      assert OrderKey(b.orders[i]) == OrderKey(a.orders[i]);
    }
  }

  lemma LineItemsGrowWellFormed(a: Database, b: Database)
    requires Grows(a, b) && LineItemsWellFormed(a)
    requires |b.lineItems| == |a.lineItems| ||
      (|b.lineItems| == |a.lineItems| + 1 && b.lineItems[|a.lineItems|].id == a.nextId < b.nextId &&
       b.lineItems[|a.lineItems|].orderId in OrderIds(b) && b.lineItems[|a.lineItems|].variantId in VariantIds(b))
    ensures LineItemsWellFormed(b)
  {
    GrowsKeepsIds(a, b);
    forall i | 0 <= i < |a.lineItems|
      ensures b.lineItems[i].orderId in OrderIds(b) && b.lineItems[i].variantId in VariantIds(b)
    {
      assert LineItemKey(b.lineItems[i]) == LineItemKey(a.lineItems[i]);
    }
  }

  lemma GrowsStaysWellFormed(a: Database, b: Database)
    requires Grows(a, b) && WellFormed(a)
    requires |b.customers| == |a.customers| ||
      (|b.customers| == |a.customers| + 1 && b.customers[|a.customers|].id == a.nextId < b.nextId &&
       b.customers[|a.customers|].tenantId in TenantIds(b))
    requires |b.products| == |a.products| ||
      (|b.products| == |a.products| + 1 && b.products[|a.products|].id == a.nextId < b.nextId &&
       b.products[|a.products|].tenantId in TenantIds(b))
    requires |b.variants| == |a.variants| ||
      (|b.variants| == |a.variants| + 1 && b.variants[|a.variants|].id == a.nextId < b.nextId &&
       b.variants[|a.variants|].productId in ProductIds(b))
    requires |b.orders| == |a.orders| ||
      (|b.orders| == |a.orders| + 1 && b.orders[|a.orders|].id == a.nextId < b.nextId &&
       b.orders[|a.orders|].tenantId in TenantIds(b))
    requires forall i :: 0 <= i < |b.orders| && b.orders[i].customerId.Some? ==>
      b.orders[i].customerId.value in CustomerIds(b)
    requires |b.lineItems| == |a.lineItems| ||
      (|b.lineItems| == |a.lineItems| + 1 && b.lineItems[|a.lineItems|].id == a.nextId < b.nextId &&
       b.lineItems[|a.lineItems|].orderId in OrderIds(b) && b.lineItems[|a.lineItems|].variantId in VariantIds(b))
    ensures WellFormed(b)
  {
    TenantsGrowWellFormed(a, b);
    CustomersGrowWellFormed(a, b);
    ProductsGrowWellFormed(a, b);
    VariantsGrowWellFormed(a, b);
    OrdersGrowWellFormed(a, b);
    LineItemsGrowWellFormed(a, b);
  }

  /** Growing without touching the orders keeps every customer link valid. */
  lemma GrowsKeepsCustomerLinks(a: Database, b: Database)
    requires Grows(a, b) && OrdersWellFormed(a) && b.orders == a.orders
    ensures forall i :: 0 <= i < |b.orders| && b.orders[i].customerId.Some? ==>
      b.orders[i].customerId.value in CustomerIds(b)
  {
    GrowsKeepsIds(a, b);
  }

  /** Changing only the tenants keeps the rest well formed while no tenant id is lost. */
  lemma TenantsChangeWellFormed(a: Database, b: Database)
    requires WellFormed(a) && TenantsWellFormed(b)
    requires b == a.(tenants := b.tenants, nextId := b.nextId) && a.nextId <= b.nextId
    requires TenantIds(a) <= TenantIds(b)
    ensures WellFormed(b)
  {
    assert CustomerIds(b) == CustomerIds(a) && ProductIds(b) == ProductIds(a);
    assert VariantIds(b) == VariantIds(a) && OrderIds(b) == OrderIds(a);
  }

  /** The whole of a sequence as a prefix; a fact to hand to a loop's exit. */
  lemma TakeAll<T>(xs: seq<T>)
    ensures xs[..|xs|] == xs
  {
  }
}
