/**
 * The four endpoints of the ingestion service (main.py) over one database
 * session. A `Store` holds the working state of the session: the committed
 * rows plus whatever the current call has staged. A call that fails rolls
 * the working state back to the snapshot taken when it started.
 *
 * Flushing is where the database checks its unique constraints. main.py
 * flushes explicitly after staging a new product or order (main.py:131,
 * 217) and, through autoflush, before every query; only `commit()` is
 * inside the `try` that turns an `IntegrityError` into 409. A violation
 * raised by an earlier flush escapes as an unhandled exception, which the
 * web framework answers with 500. Only the flush points at which a
 * violation can surface are modelled; at the others nothing staged since the
 * previous check can clash.
 */
module Ingest {
  import opened Wrappers
  import opened Models
  import opened Payload
  import opened Reconcile
  import opened Properties

  /** The two messages of `update_tenant`. */
  datatype TenantMessage = TokenUpdated | TenantCreated

  /** The outcome of an ingestion endpoint. */
  datatype Response =
    | Ingested(count: nat)           // 200: "Successfully ingested {count} ..."
    | NotFound                       // 404: "Tenant not found"
    | UpstreamError(detail: string)  // 500: the Shopify client raised
    | Conflict                       // 409: `commit()` raised IntegrityError
    | UnhandledIntegrityError        // 500: a flush outside the `try` raised IntegrityError

  /** The token update of `update_tenant`: the shop's row takes the new token. */
  lemma TokenRenewed(db: Database, k: nat, shopName: string, accessToken: string)
    requires Unique(db) && WellFormed(db)
    requires k < |db.tenants| && db.tenants[k].shopName == shopName
    ensures var b := db.(tenants := db.tenants[k := db.tenants[k].(accessToken := accessToken)]);
      && Unique(b) && WellFormed(b)
      && (forall j :: 0 <= j < |b.tenants| && j != k ==> b.tenants[j].shopName != shopName)
  {
    var b := db.(tenants := db.tenants[k := db.tenants[k].(accessToken := accessToken)]);
    assert TenantIds(b) == TenantIds(db) by {
      forall x | x in TenantIds(db) ensures x in TenantIds(b) {
        var i :| 0 <= i < |db.tenants| && db.tenants[i].id == x;
        assert b.tenants[i].id == x;
      }
    }
    TenantsChangeWellFormed(db, b);
  }

  /** The insert of `update_tenant`: a new row under the next primary key. */
  lemma TenantAdded(db: Database, shopName: string, accessToken: string)
    requires Unique(db) && WellFormed(db)
    requires forall j :: 0 <= j < |db.tenants| ==> db.tenants[j].shopName != shopName
    ensures var b := db.(tenants := db.tenants + [Tenant(db.nextId, shopName, accessToken)], nextId := db.nextId + 1);
      Unique(b) && WellFormed(b)
  {
    var b := db.(tenants := db.tenants + [Tenant(db.nextId, shopName, accessToken)], nextId := db.nextId + 1);
    assert TenantIds(db) <= TenantIds(b) by {
      forall x | x in TenantIds(db) ensures x in TenantIds(b) {
        var i :| 0 <= i < |db.tenants| && db.tenants[i].id == x;
        assert b.tenants[i].id == x;
      }
    }
    TenantsChangeWellFormed(db, b);
  }

  class Store {
    var tenants: seq<Tenant>
    var customers: seq<Customer>
    var products: seq<Product>
    var variants: seq<ProductVariant>
    var orders: seq<Order>
    var lineItems: seq<OrderLineItem>
    var nextId: nat

    function State(): Database
      reads this
    {
      Database(tenants, customers, products, variants, orders, lineItems, nextId)
    }

    /** What the database guarantees of any committed state. */
    ghost predicate Valid()
      reads this
    {
      Unique(State()) && WellFormed(State())
    }

    /** An empty database; primary keys start at 1. */
    constructor ()
      ensures Valid() && LineItemPairsUnique(State())
      ensures State() == Database([], [], [], [], [], [], 1)
    {
      tenants, customers, products, variants, orders, lineItems := [], [], [], [], [], [];
      nextId := 1;
    }

    /** `db.rollback()`, or closing the session without a commit. */
    method Rollback(snapshot: Database)
      modifies this
      ensures State() == snapshot
    {
      tenants, customers, products := snapshot.tenants, snapshot.customers, snapshot.products;
      variants, orders, lineItems := snapshot.variants, snapshot.orders, snapshot.lineItems;
      nextId := snapshot.nextId;
    }

    /**
     * POST /update_tenant (main.py:22-44): one tenant per shop name, holding
     * the given token; created only when no tenant has that shop name.
     */
    method UpdateTenant(shopName: string, accessToken: string) returns (m: TenantMessage)
      requires Valid()
      modifies this
      ensures Valid()
      ensures exists k :: 0 <= k < |tenants| && tenants[k].shopName == shopName &&
                          tenants[k].accessToken == accessToken &&
                          forall j :: 0 <= j < |tenants| && j != k ==> tenants[j].shopName != shopName
      ensures m == TenantCreated <==> forall k :: 0 <= k < |old(tenants)| ==> old(tenants)[k].shopName != shopName
      ensures m == TenantCreated ==>
        tenants == old(tenants) + [Tenant(old(nextId), shopName, accessToken)] && nextId == old(nextId) + 1
      ensures m == TokenUpdated ==>
        |tenants| == |old(tenants)| && nextId == old(nextId) &&
        forall k :: 0 <= k < |tenants| ==>
          tenants[k] == if old(tenants)[k].shopName == shopName
                        then old(tenants)[k].(accessToken := accessToken) else old(tenants)[k]
      ensures customers == old(customers) && products == old(products) && variants == old(variants)
      ensures orders == old(orders) && lineItems == old(lineItems)
    {
      ghost var before := State();
      match FindKey(tenants, TenantShop, shopName) {
        case Some(k) =>
          tenants := tenants[k := tenants[k].(accessToken := accessToken)];
          m := TokenUpdated;
          TokenRenewed(before, k, shopName, accessToken);
          assert tenants[k].shopName == shopName && tenants[k].accessToken == accessToken;
        case None =>
          tenants := tenants + [Tenant(nextId, shopName, accessToken)];
          nextId := nextId + 1;
          m := TenantCreated;
          TenantAdded(before, shopName, accessToken);
          assert tenants[|before.tenants|].shopName == shopName;
      }
    }

    // -------------------------------------------------------------------
    // Row-level staging, one per upsert of main.py

    method StageCustomer(tenantId: nat, c: CustomerJson)
      modifies this
      ensures State() == UpsertCustomer(old(State()), tenantId, c)
    {
      match FindCustomer(State(), c.id, tenantId) {
        case Some(k) =>
          customers := customers[k := OverwriteCustomer(customers[k], c)];
        case None =>
          customers := customers + [NewCustomer(nextId, tenantId, c)];
          nextId := nextId + 1;
      }
    }

    method StageVariant(productId: nat, v: VariantJson)
      modifies this
      ensures State() == UpsertVariant(old(State()), productId, v)
    {
      match FindVariant(State(), v.id) {
        case Some(k) =>
          variants := variants[k := OverwriteVariant(variants[k], v)];
        case None =>
          variants := variants + [NewVariant(nextId, productId, v)];
          nextId := nextId + 1;
      }
    }

    method StageLineItem(orderId: nat, li: LineItemJson)
      modifies this
      ensures State() == UpsertLineItem(old(State()), orderId, li)
    {
      match FindVariant(State(), li.variantId) {
        case None =>
        case Some(v) =>
          var variantId := variants[v].id;
          match FindLineItem(State(), orderId, variantId) {
            case Some(k) =>
              lineItems := lineItems[k := OverwriteLineItem(lineItems[k], li)];
            case None =>
              lineItems := lineItems + [NewLineItem(nextId, orderId, variantId, li)];
              nextId := nextId + 1;
          }
      }
    }

    /** The product upsert of main.py:113-131; answers the id the variants link to. */
    method StageProductRow(tenantId: nat, p: ProductJson) returns (productId: nat)
      modifies this
      ensures (State(), productId) == UpsertProductRow(old(State()), tenantId, p)
    {
      match FindProduct(State(), p.id, tenantId) {
        case Some(k) =>
          productId := products[k].id;
          products := products[k := OverwriteProduct(products[k], p)];
        case None =>
          productId := nextId;
          products := products + [NewProduct(nextId, tenantId, p)];
          nextId := nextId + 1;
      }
    }

    /** The variants loop of main.py:136-159. */
    method StageProductVariants(productId: nat, vs: seq<VariantJson>)
      modifies this
      ensures State() == StageVariants(old(State()), productId, vs)
    {
      ghost var start := State();
      var j := 0;
      while j < |vs|
        invariant 0 <= j <= |vs|
        invariant State() == StageVariants(start, productId, vs[..j])
      {
        StageVariant(productId, vs[j]);
        StageVariantsStep(start, productId, vs, j);
        j := j + 1;
      }
      TakeAll(vs);
    }

    /** The order upsert of main.py:199-217, linked to the resolved customer. */
    method StageOrderRow(tenantId: nat, o: OrderJson) returns (orderId: nat)
      modifies this
      ensures (State(), orderId) == UpsertOrderRow(old(State()), tenantId, o)
    {
      var customerId := ResolveCustomer(State(), tenantId, o.customer);
      match FindOrder(State(), o.id, tenantId) {
        case Some(k) =>
          orderId := orders[k].id;
          orders := orders[k := OverwriteOrder(orders[k], o, customerId)];
        case None =>
          orderId := nextId;
          orders := orders + [NewOrder(nextId, tenantId, customerId, o)];
          nextId := nextId + 1;
      }
    }

    /** The line-item loop of main.py:222-245. */
    method StageOrderLineItems(orderId: nat, lis: seq<LineItemJson>)
      modifies this
      ensures State() == StageLineItems(old(State()), orderId, lis)
    {
      ghost var start := State();
      var j := 0;
      while j < |lis|
        invariant 0 <= j <= |lis|
        invariant State() == StageLineItems(start, orderId, lis[..j])
      {
        StageLineItem(orderId, lis[j]);
        StageLineItemsStep(start, orderId, lis, j);
        j := j + 1;
      }
      TakeAll(lis);
    }

    /**
     * One product record of main.py:109-159: the row, the flush a new row
     * sends (main.py:131), then its variants. False when that flush is
     * refused; the caller then abandons the batch.
     */
    method StageProduct(tenantId: nat, p: ProductJson) returns (ok: bool)
      requires Unique(State())
      modifies this
      ensures ok <==> FindProduct(old(State()), p.id, tenantId).Some? ||
                      Unique(UpsertProductRow(old(State()), tenantId, p).0)
      ensures ok ==> State() == UpsertProduct(old(State()), tenantId, p) && Unique(State())
      ensures !ok ==> State() == UpsertProductRow(old(State()), tenantId, p).0
    {
      var isNew := FindProduct(State(), p.id, tenantId).None?;
      var productId := StageProductRow(tenantId, p);
      if isNew && !Unique(State()) {
        return false;
      }
      StageProductVariants(productId, p.variants);
      return true;
    }

    /**
     * One order record of main.py:184-245: the customer link, the row, the
     * flush a new row sends (main.py:217), then its line items. False when
     * that flush is refused; the caller then abandons the batch.
     */
    method StageOrder(tenantId: nat, o: OrderJson) returns (ok: bool)
      requires Unique(State())
      modifies this
      ensures ok <==> FindOrder(old(State()), o.id, tenantId).Some? ||
                      Unique(UpsertOrderRow(old(State()), tenantId, o).0)
      ensures ok ==> State() == UpsertOrder(old(State()), tenantId, o) && Unique(State())
      ensures !ok ==> State() == UpsertOrderRow(old(State()), tenantId, o).0
    {
      var isNew := FindOrder(State(), o.id, tenantId).None?;
      var orderId := StageOrderRow(tenantId, o);
      if isNew && !Unique(State()) {
        return false;
      }
      StageOrderLineItems(orderId, o.lineItems);
      return true;
    }

    // -------------------------------------------------------------------
    // The ingestion endpoints

    /**
     * POST /ingest/customers/{tenant_id} (main.py:46-93). The autoflush
     * before each record's lookup sends the previous record's INSERT, so a
     * customer whose external id another tenant holds is refused there
     * (unhandled, 500) unless it is the last record, whose INSERT is sent by
     * the commit (409).
     */
    method IngestCustomers(tenantId: int, fetched: Fetched<CustomerJson>) returns (r: Response)
      requires Valid()
      modifies this
      ensures Valid()
      ensures ResolveTenant(old(State()), tenantId).None? ==> r == NotFound && State() == old(State())
      ensures ResolveTenant(old(State()), tenantId).Some? && fetched.FetchFailed? ==>
        r == UpstreamError(fetched.detail) && State() == old(State())
      ensures ResolveTenant(old(State()), tenantId).Some? && fetched.Fetched? ==>
        CustomersOutcome(old(State()), ResolveTenant(old(State()), tenantId).value, fetched.payload, r, State())
    {
      var found := ResolveTenant(State(), tenantId);
      if found.None? {
        return NotFound;
      }
      if fetched.FetchFailed? {
        return UpstreamError(fetched.detail);
      }
      r := ReconcileCustomers(found.value, fetched.payload);
    }

    /** The upsert loop and the commit of `ingest_customers` (main.py:59-93). */

    method ReconcileCustomers(t: nat, cs: seq<CustomerJson>) returns (r: Response)
      requires Valid() && t in TenantIds(State())
      modifies this
      ensures Valid()
      ensures CustomersOutcome(old(State()), t, cs, r, State())
    {
      var snapshot := State();
      var i := 0;
      while i < |cs|
        invariant 0 <= i <= |cs|
        invariant State() == StageCustomers(snapshot, t, cs[..i])
        invariant PrefixesUnique(snapshot, t, cs, i)
      {
        // autoflush before the lookup at main.py:64
        if !Unique(State()) {
          EarlyCustomerViolation(snapshot, t, cs, i);
          Rollback(snapshot);
          return UnhandledIntegrityError;
        }
        PrefixesUniqueExtend(snapshot, t, cs, i);
        StageCustomer(t, cs[i]);
        StageCustomersStep(snapshot, t, cs, i);
        i := i + 1;
      }
      TakeAll(cs);
      // commit at main.py:88
      if !Unique(State()) {
        Rollback(snapshot);
        return Conflict;
      }
      StageCustomersWellFormed(snapshot, t, cs);
      return Ingested(|cs|);
    }
  
    /**
     * POST /ingest/products/{tenant_id} (main.py:95-167). A new product row
     * is flushed at once (main.py:131), so a product whose external id another
     * tenant holds is refused there (unhandled, 500). A variant never clashes:
     * its lookup is as wide as its unique constraint. So the commit never
     * raises, and this endpoint never answers 409.
     */
    method IngestProducts(tenantId: int, fetched: Fetched<ProductJson>) returns (r: Response)
      requires Valid()
      modifies this
      ensures Valid()
      ensures r != Conflict
      ensures ResolveTenant(old(State()), tenantId).None? ==> r == NotFound && State() == old(State())
      ensures ResolveTenant(old(State()), tenantId).Some? && fetched.FetchFailed? ==>
        r == UpstreamError(fetched.detail) && State() == old(State())
      ensures ResolveTenant(old(State()), tenantId).Some? && fetched.Fetched? ==>
        ProductsOutcome(old(State()), ResolveTenant(old(State()), tenantId).value, fetched.payload, r, State())
    {
      var found := ResolveTenant(State(), tenantId);
      if found.None? {
        return NotFound;
      }
      if fetched.FetchFailed? {
        return UpstreamError(fetched.detail);
      }
      r := ReconcileProducts(found.value, fetched.payload);
    }

    /** The upsert loops and the commit of `ingest_products` (main.py:108-167). */
    method ReconcileProducts(t: nat, ps: seq<ProductJson>) returns (r: Response)
      requires Valid() && t in TenantIds(State())
      modifies this
      ensures Valid()
      ensures r != Conflict
      ensures ProductsOutcome(old(State()), t, ps, r, State())
    {
      var snapshot := State();
      var i := 0;
      while i < |ps|
        invariant 0 <= i <= |ps|
        invariant State() == StageProducts(snapshot, t, ps[..i])
        invariant Unique(State())
      {
        var ok := StageProduct(t, ps[i]);
        if !ok {
          ProductRowViolationPersists(snapshot, t, ps, i);
          Rollback(snapshot);
          return UnhandledIntegrityError;
        }
        StageProductsStep(snapshot, t, ps, i);
        i := i + 1;
      }
      TakeAll(ps);
      // commit at main.py:162: every row that could clash was already flushed
      StageProductsWellFormed(snapshot, t, ps);
      return Ingested(|ps|);
    }



    /**
     * POST /ingest/orders/{tenant_id} (main.py:169-253). A new order row is
     * flushed at once (main.py:217), so an order whose external id another
     * tenant holds is refused there (unhandled, 500). Line items have no
     * unique column, so the commit never raises and this endpoint never
     * answers 409. No customer is ever created or changed.
     */
    method IngestOrders(tenantId: int, fetched: Fetched<OrderJson>) returns (r: Response)
      requires Valid()
      modifies this
      ensures Valid()
      ensures r != Conflict
      ensures customers == old(customers)
      ensures old(LineItemPairsUnique(State())) ==> LineItemPairsUnique(State())
      ensures ResolveTenant(old(State()), tenantId).None? ==> r == NotFound && State() == old(State())
      ensures ResolveTenant(old(State()), tenantId).Some? && fetched.FetchFailed? ==>
        r == UpstreamError(fetched.detail) && State() == old(State())
      ensures ResolveTenant(old(State()), tenantId).Some? && fetched.Fetched? ==>
        OrdersOutcome(old(State()), ResolveTenant(old(State()), tenantId).value, fetched.payload, r, State())
    {
      var found := ResolveTenant(State(), tenantId);
      if found.None? {
        return NotFound;
      }
      if fetched.FetchFailed? {
        return UpstreamError(fetched.detail);
      }
      r := ReconcileOrders(found.value, fetched.payload);
    }

    /** The upsert loops and the commit of `ingest_orders` (main.py:182-253). */
    method ReconcileOrders(t: nat, os: seq<OrderJson>) returns (r: Response)
      requires Valid() && t in TenantIds(State())
      modifies this
      ensures Valid()
      ensures r != Conflict
      ensures customers == old(customers)
      ensures old(LineItemPairsUnique(State())) ==> LineItemPairsUnique(State())
      ensures OrdersOutcome(old(State()), t, os, r, State())
    {
      var snapshot := State();
      var i := 0;
      while i < |os|
        invariant 0 <= i <= |os|
        invariant State() == StageOrders(snapshot, t, os[..i])
        invariant Unique(State())
      {
        var ok := StageOrder(t, os[i]);
        if !ok {
          OrderRowViolationPersists(snapshot, t, os, i);
          Rollback(snapshot);
          return UnhandledIntegrityError;
        }
        StageOrdersStep(snapshot, t, os, i);
        i := i + 1;
      }
      TakeAll(os);
      // commit at main.py:248: every row that could clash was already flushed
      StageOrdersWellFormed(snapshot, t, os);
      return Ingested(|os|);
    }


  }

  /** A violation the autoflush meets part-way stays in the staged batch, and the batch is not a 409. */
  lemma EarlyCustomerViolation(db: Database, t: nat, cs: seq<CustomerJson>, i: nat)
    requires i < |cs| && !Unique(StageCustomers(db, t, cs[..i]))
    ensures CustomersOutcome(db, t, cs, UnhandledIntegrityError, db)
  {
    StageCustomersPrefixGrows(db, t, cs, i);
    ViolationPersists(StageCustomers(db, t, cs[..i]), StageCustomers(db, t, cs));
  }

  lemma PrefixesUniqueExtend(db: Database, t: nat, cs: seq<CustomerJson>, i: nat)
    requires i < |cs| && PrefixesUnique(db, t, cs, i) && Unique(StageCustomers(db, t, cs[..i]))
    ensures PrefixesUnique(db, t, cs, i + 1)
  {
  }

  /** Every proper prefix of the first `n` records staged a state the database accepts. */
  ghost predicate PrefixesUnique(db: Database, t: nat, cs: seq<CustomerJson>, n: nat)
    requires n <= |cs|
  {
    forall k :: 0 <= k < n ==> Unique(StageCustomers(db, t, cs[..k]))
  }

  /**
   * How a customer batch ends: committed exactly as staged when the staged
   * state is accepted, else rolled back; 409 exactly when the violation was
   * first sent by the commit, i.e. every proper prefix was accepted.
   */
  ghost predicate CustomersOutcome(db: Database, t: nat, cs: seq<CustomerJson>, r: Response, after: Database) {
    var staged := StageCustomers(db, t, cs);
    && (Unique(staged) ==> r == Ingested(|cs|) && after == staged)
    && (!Unique(staged) ==> after == db && (r == Conflict || r == UnhandledIntegrityError))
    && (r == Conflict <==> !Unique(staged) && PrefixesUnique(db, t, cs, |cs|))
  }

  /** How a product batch ends: committed exactly as staged, or rolled back with a 500. */
  ghost predicate ProductsOutcome(db: Database, t: nat, ps: seq<ProductJson>, r: Response, after: Database) {
    var staged := StageProducts(db, t, ps);
    && (Unique(staged) ==> r == Ingested(|ps|) && after == staged)
    && (!Unique(staged) ==> r == UnhandledIntegrityError && after == db)
  }

  /** How an order batch ends: committed exactly as staged, or rolled back with a 500. */
  ghost predicate OrdersOutcome(db: Database, t: nat, os: seq<OrderJson>, r: Response, after: Database) {
    var staged := StageOrders(db, t, os);
    && (Unique(staged) ==> r == Ingested(|os|) && after == staged)
    && (!Unique(staged) ==> r == UnhandledIntegrityError && after == db)
  }

  // ---------------------------------------------------------------------
  // A record whose external id another tenant holds fails its whole batch.

  lemma CrossTenantCustomersRolledBack(db: Database, t: nat, cs: seq<CustomerJson>, i: nat, other: nat,
                                       r: Response, after: Database)
    requires i < |cs| && other < |db.customers|
    requires cs[i].id.Some? && db.customers[other].shopifyCustomerId == cs[i].id
    requires db.customers[other].tenantId != t
    requires CustomersOutcome(db, t, cs, r, after)
    ensures after == db && (r == Conflict || r == UnhandledIntegrityError)
  {
    CrossTenantCustomerRefused(db, t, cs, i, other);
  }

  lemma CrossTenantProductsRolledBack(db: Database, t: nat, ps: seq<ProductJson>, i: nat, other: nat,
                                      r: Response, after: Database)
    requires i < |ps| && other < |db.products|
    requires ps[i].id.Some? && db.products[other].shopifyProductId == ps[i].id
    requires db.products[other].tenantId != t
    requires ProductsOutcome(db, t, ps, r, after)
    ensures after == db && r == UnhandledIntegrityError
  {
    CrossTenantProductRefused(db, t, ps, i, other);
  }

  lemma CrossTenantOrdersRolledBack(db: Database, t: nat, os: seq<OrderJson>, i: nat, other: nat,
                                    r: Response, after: Database)
    requires i < |os| && other < |db.orders|
    requires os[i].id.Some? && db.orders[other].shopifyOrderId == os[i].id
    requires db.orders[other].tenantId != t
    requires OrdersOutcome(db, t, os, r, after)
    ensures after == db && r == UnhandledIntegrityError
  {
    CrossTenantOrderRefused(db, t, os, i, other);
  }
}
