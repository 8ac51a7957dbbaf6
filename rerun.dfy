/**
 * Ingesting the same product or order payload a second time adds no row:
 * after the first run every record (and every nested variant or line item
 * whose variant is known) has its row, and a record that finds its row
 * only overwrites it.
 */
module Rerun {
  import opened Wrappers
  import opened Models
  import opened Payload
  import opened Reconcile

  // ---------------------------------------------------------------------
  // Products and variants (main.py:113-160)

  /** Every variant record has a row with its external id. */
  ghost predicate VariantsPresent(db: Database, vs: seq<VariantJson>) {
    forall j :: 0 <= j < |vs| ==> FindVariant(db, vs[j].id).Some?
  }

  /** Every product record has its tenant's row, and all its variants have theirs. */
  ghost predicate ProductsPresent(db: Database, tenantId: nat, ps: seq<ProductJson>) {
    forall i :: 0 <= i < |ps| ==> FindProduct(db, ps[i].id, tenantId).Some? && VariantsPresent(db, ps[i].variants)
  }

  lemma VariantsPresentGrows(a: Database, b: Database, vs: seq<VariantJson>)
    requires Grows(a, b) && VariantsPresent(a, vs)
    ensures VariantsPresent(b, vs)
  {
    forall j | 0 <= j < |vs| ensures FindVariant(b, vs[j].id).Some? {
      FindKeyStable(a.variants, b.variants, VariantKey, vs[j].id);
    }
  }

  lemma ProductsPresentGrows(a: Database, b: Database, tenantId: nat, ps: seq<ProductJson>)
    requires Grows(a, b) && ProductsPresent(a, tenantId, ps)
    ensures ProductsPresent(b, tenantId, ps)
  {
    forall i | 0 <= i < |ps| ensures FindProduct(b, ps[i].id, tenantId).Some? && VariantsPresent(b, ps[i].variants) {
      FindKeyStable(a.products, b.products, ProductKey, (ps[i].id, tenantId));
      VariantsPresentGrows(a, b, ps[i].variants);
    }
  }

  lemma VariantsPresentStep(prev: Database, productId: nat, vs: seq<VariantJson>)
    requires |vs| > 0 && VariantsPresent(prev, vs[..|vs| - 1])
    ensures VariantsPresent(UpsertVariant(prev, productId, vs[|vs| - 1]), vs)
  {
    var r := UpsertVariant(prev, productId, vs[|vs| - 1]);
    VariantsPresentGrows(prev, r, vs[..|vs| - 1]);
    forall j | 0 <= j < |vs| - 1 ensures FindVariant(r, vs[j].id).Some? {
      assert vs[..|vs| - 1][j] == vs[j];
    }
  }

  lemma {:induction false} StageVariantsPresent(db: Database, productId: nat, vs: seq<VariantJson>)
    ensures VariantsPresent(StageVariants(db, productId, vs), vs)
  {
    if |vs| > 0 {
      var init := vs[..|vs| - 1];
      StageVariantsPresent(db, productId, init);
      VariantsPresentStep(StageVariants(db, productId, init), productId, vs);
    }
  }

  /** After a product payload is staged, each product and variant record has its row. */
  lemma {:induction false} StageProductsPresent(db: Database, tenantId: nat, ps: seq<ProductJson>)
    ensures ProductsPresent(StageProducts(db, tenantId, ps), tenantId, ps)
  {
    if |ps| > 0 {
      var init := ps[..|ps| - 1];
      StageProductsPresent(db, tenantId, init);
      ProductsPresentStep(StageProducts(db, tenantId, init), tenantId, ps);
    }
  }

  lemma ProductsPresentStep(prev: Database, tenantId: nat, ps: seq<ProductJson>)
    requires |ps| > 0 && ProductsPresent(prev, tenantId, ps[..|ps| - 1])
    ensures ProductsPresent(UpsertProduct(prev, tenantId, ps[|ps| - 1]), tenantId, ps)
  {
    var p := ps[|ps| - 1];
    var (d, pid) := UpsertProductRow(prev, tenantId, p);
    var r := StageVariants(d, pid, p.variants);
    assert r == UpsertProduct(prev, tenantId, p);
    GrowsTransitive(prev, d, r);
    ProductsPresentGrows(prev, r, tenantId, ps[..|ps| - 1]);
    FindKeyStable(d.products, r.products, ProductKey, (p.id, tenantId));
    StageVariantsPresent(d, pid, p.variants);
    forall i | 0 <= i < |ps| - 1
      ensures FindProduct(r, ps[i].id, tenantId).Some? && VariantsPresent(r, ps[i].variants)
    {
      assert ps[..|ps| - 1][i] == ps[i];
    }
  }

  lemma {:induction false} StagePresentVariantsAddsNothing(db: Database, productId: nat, vs: seq<VariantJson>)
    requires VariantsPresent(db, vs)
    ensures var r := StageVariants(db, productId, vs);
      |r.variants| == |db.variants| && r.nextId == db.nextId
  {
    if |vs| > 0 {
      var init := vs[..|vs| - 1];
      assert VariantsPresent(db, init) by {
        forall j | 0 <= j < |init| ensures FindVariant(db, init[j].id).Some? {
          assert init[j] == vs[j];
        }
      }
      StagePresentVariantsAddsNothing(db, productId, init);
      PresentVariantAddsNothing(db, StageVariants(db, productId, init), productId, vs[|vs| - 1]);
    }
  }

  /** A variant record that finds its row, on a table that only had rows overwritten, appends nothing. */
  lemma PresentVariantAddsNothing(db: Database, prev: Database, productId: nat, v: VariantJson)
    requires Grows(db, prev) && |prev.variants| == |db.variants| && prev.nextId == db.nextId
    requires FindVariant(db, v.id).Some?
    ensures var r := UpsertVariant(prev, productId, v);
      |r.variants| == |db.variants| && r.nextId == db.nextId
  {
    FindKeySameKeys(db.variants, prev.variants, VariantKey, v.id);
  }

  /** A product payload whose records all have their rows adds no product and no variant. */
  lemma {:induction false} StagePresentProductsAddsNothing(db: Database, tenantId: nat, ps: seq<ProductJson>)
    requires ProductsPresent(db, tenantId, ps)
    ensures var r := StageProducts(db, tenantId, ps);
      |r.products| == |db.products| && |r.variants| == |db.variants| && r.nextId == db.nextId
  {
    if |ps| > 0 {
      var init := ps[..|ps| - 1];
      assert ProductsPresent(db, tenantId, init) by {
        forall i | 0 <= i < |init|
          ensures FindProduct(db, init[i].id, tenantId).Some? && VariantsPresent(db, init[i].variants)
        {
          assert init[i] == ps[i];
        }
      }
      StagePresentProductsAddsNothing(db, tenantId, init);
      PresentProductAddsNothing(db, StageProducts(db, tenantId, init), tenantId, ps[|ps| - 1]);
    }
  }

  /** A product record that finds its row, and whose variants find theirs, appends nothing. */
  lemma PresentProductAddsNothing(db: Database, prev: Database, tenantId: nat, p: ProductJson)
    requires Grows(db, prev) && prev.nextId == db.nextId
    requires |prev.products| == |db.products| && |prev.variants| == |db.variants|
    requires FindProduct(db, p.id, tenantId).Some? && VariantsPresent(db, p.variants)
    ensures var r := UpsertProduct(prev, tenantId, p);
      |r.products| == |db.products| && |r.variants| == |db.variants| && r.nextId == db.nextId
  {
    FindKeySameKeys(db.products, prev.products, ProductKey, (p.id, tenantId));
    var (d, pid) := UpsertProductRow(prev, tenantId, p);
    GrowsTransitive(db, prev, d);
    VariantsPresentGrows(db, d, p.variants);
    StagePresentVariantsAddsNothing(d, pid, p.variants);
  }

  /** Re-ingesting the same products adds no product and no variant the second time. */
  lemma ProductsTwiceAddsNothing(db: Database, tenantId: nat, ps: seq<ProductJson>)
    ensures var once := StageProducts(db, tenantId, ps);
      var twice := StageProducts(once, tenantId, ps);
      |twice.products| == |once.products| && |twice.variants| == |once.variants| && twice.nextId == once.nextId
  {
    StageProductsPresent(db, tenantId, ps);
    StagePresentProductsAddsNothing(StageProducts(db, tenantId, ps), tenantId, ps);
  }

  // ---------------------------------------------------------------------
  // Orders and line items (main.py:199-245)

  /** Every line item whose variant is known has the row of (order, variant). */
  ghost predicate LineItemsPresent(db: Database, orderId: nat, lis: seq<LineItemJson>) {
    forall j :: 0 <= j < |lis| && FindVariant(db, lis[j].variantId).Some? ==>
      FindLineItem(db, orderId, db.variants[FindVariant(db, lis[j].variantId).value].id).Some?
  }

  /** Every order record has its tenant's row, and its line items have theirs under that row's id. */
  ghost predicate OrdersPresent(db: Database, tenantId: nat, os: seq<OrderJson>) {
    forall i :: 0 <= i < |os| ==>
      FindOrder(db, os[i].id, tenantId).Some? &&
      LineItemsPresent(db, db.orders[FindOrder(db, os[i].id, tenantId).value].id, os[i].lineItems)
  }

  lemma LineItemsPresentGrows(a: Database, b: Database, orderId: nat, lis: seq<LineItemJson>)
    requires Grows(a, b) && b.variants == a.variants && LineItemsPresent(a, orderId, lis)
    ensures LineItemsPresent(b, orderId, lis)
  {
    forall j | 0 <= j < |lis| && FindVariant(b, lis[j].variantId).Some?
      ensures FindLineItem(b, orderId, b.variants[FindVariant(b, lis[j].variantId).value].id).Some?
    {
      FindKeyStable(a.lineItems, b.lineItems, LineItemKey, (orderId, a.variants[FindVariant(a, lis[j].variantId).value].id));
    }
  }

  lemma OrdersPresentGrows(a: Database, b: Database, tenantId: nat, os: seq<OrderJson>)
    requires Grows(a, b) && b.variants == a.variants && OrdersPresent(a, tenantId, os)
    ensures OrdersPresent(b, tenantId, os)
  {
    forall i | 0 <= i < |os|
      ensures FindOrder(b, os[i].id, tenantId).Some?
      ensures LineItemsPresent(b, b.orders[FindOrder(b, os[i].id, tenantId).value].id, os[i].lineItems)
    {
      FindKeyStable(a.orders, b.orders, OrderKey, (os[i].id, tenantId));
      LineItemsPresentGrows(a, b, a.orders[FindOrder(a, os[i].id, tenantId).value].id, os[i].lineItems);
    }
  }

  lemma {:induction false} StageLineItemsPresent(db: Database, orderId: nat, lis: seq<LineItemJson>)
    ensures LineItemsPresent(StageLineItems(db, orderId, lis), orderId, lis)
  {
    if |lis| > 0 {
      var init := lis[..|lis| - 1];
      StageLineItemsPresent(db, orderId, init);
      LineItemsPresentStep(StageLineItems(db, orderId, init), orderId, lis);
    }
  }

  lemma LineItemsPresentStep(prev: Database, orderId: nat, lis: seq<LineItemJson>)
    requires |lis| > 0 && LineItemsPresent(prev, orderId, lis[..|lis| - 1])
    ensures LineItemsPresent(UpsertLineItem(prev, orderId, lis[|lis| - 1]), orderId, lis)
  {
    var r := UpsertLineItem(prev, orderId, lis[|lis| - 1]);
    assert r.variants == prev.variants;
    LineItemsPresentGrows(prev, r, orderId, lis[..|lis| - 1]);
    forall j | 0 <= j < |lis| - 1 && FindVariant(r, lis[j].variantId).Some?
      ensures FindLineItem(r, orderId, r.variants[FindVariant(r, lis[j].variantId).value].id).Some?
    {
      assert lis[..|lis| - 1][j] == lis[j];
    }
  }

  /** After an order payload is staged, each order and each line item of a known variant has its row. */
  lemma {:induction false} StageOrdersPresent(db: Database, tenantId: nat, os: seq<OrderJson>)
    ensures OrdersPresent(StageOrders(db, tenantId, os), tenantId, os)
  {
    if |os| > 0 {
      var init := os[..|os| - 1];
      StageOrdersPresent(db, tenantId, init);
      OrdersPresentStep(StageOrders(db, tenantId, init), tenantId, os);
    }
  }

  lemma OrdersPresentStep(prev: Database, tenantId: nat, os: seq<OrderJson>)
    requires |os| > 0 && OrdersPresent(prev, tenantId, os[..|os| - 1])
    ensures OrdersPresent(UpsertOrder(prev, tenantId, os[|os| - 1]), tenantId, os)
  {
    var o := os[|os| - 1];
    var (d, oid) := UpsertOrderRow(prev, tenantId, o);
    var r := StageLineItems(d, oid, o.lineItems);
    assert r == UpsertOrder(prev, tenantId, o);
    assert r.variants == d.variants && r.orders == d.orders;
    GrowsTransitive(prev, d, r);
    OrdersPresentGrows(prev, r, tenantId, os[..|os| - 1]);
    StageLineItemsPresent(d, oid, o.lineItems);
    forall i | 0 <= i < |os| - 1
      ensures FindOrder(r, os[i].id, tenantId).Some?
      ensures LineItemsPresent(r, r.orders[FindOrder(r, os[i].id, tenantId).value].id, os[i].lineItems)
    {
      assert os[..|os| - 1][i] == os[i];
    }
  }

  lemma {:induction false} StagePresentLineItemsAddsNothing(db: Database, orderId: nat, lis: seq<LineItemJson>)
    requires LineItemsPresent(db, orderId, lis)
    ensures var r := StageLineItems(db, orderId, lis);
      |r.lineItems| == |db.lineItems| && r.nextId == db.nextId
  {
    if |lis| > 0 {
      var init := lis[..|lis| - 1];
      assert LineItemsPresent(db, orderId, init) by {
        forall j | 0 <= j < |init| && FindVariant(db, init[j].variantId).Some?
          ensures FindLineItem(db, orderId, db.variants[FindVariant(db, init[j].variantId).value].id).Some?
        {
          assert init[j] == lis[j];
        }
      }
      StagePresentLineItemsAddsNothing(db, orderId, init);
      PresentLineItemAddsNothing(db, StageLineItems(db, orderId, init), orderId, lis[|lis| - 1]);
    }
  }

  /** A line item that is skipped or finds its row appends nothing. */
  lemma PresentLineItemAddsNothing(db: Database, prev: Database, orderId: nat, li: LineItemJson)
    requires Grows(db, prev) && prev.variants == db.variants
    requires |prev.lineItems| == |db.lineItems| && prev.nextId == db.nextId
    requires FindVariant(db, li.variantId).Some? ==>
      FindLineItem(db, orderId, db.variants[FindVariant(db, li.variantId).value].id).Some?
    ensures var r := UpsertLineItem(prev, orderId, li);
      |r.lineItems| == |db.lineItems| && r.nextId == db.nextId
  {
    if FindVariant(db, li.variantId).Some? {
      FindKeySameKeys(db.lineItems, prev.lineItems, LineItemKey, (orderId, db.variants[FindVariant(db, li.variantId).value].id));
    }
  }

  /** An order payload whose records all have their rows adds no order and no line item. */
  lemma {:induction false} StagePresentOrdersAddsNothing(db: Database, tenantId: nat, os: seq<OrderJson>)
    requires OrdersPresent(db, tenantId, os)
    ensures var r := StageOrders(db, tenantId, os);
      |r.orders| == |db.orders| && |r.lineItems| == |db.lineItems| && r.nextId == db.nextId
  {
    if |os| > 0 {
      var init := os[..|os| - 1];
      assert OrdersPresent(db, tenantId, init) by {
        forall i | 0 <= i < |init|
          ensures FindOrder(db, init[i].id, tenantId).Some?
          ensures LineItemsPresent(db, db.orders[FindOrder(db, init[i].id, tenantId).value].id, init[i].lineItems)
        {
          assert init[i] == os[i];
        }
      }
      StagePresentOrdersAddsNothing(db, tenantId, init);
      PresentOrderAddsNothing(db, StageOrders(db, tenantId, init), tenantId, os[|os| - 1]);
    }
  }

  /** An order record that finds its row, and whose line items find theirs, appends nothing. */
  lemma PresentOrderAddsNothing(db: Database, prev: Database, tenantId: nat, o: OrderJson)
    requires Grows(db, prev) && prev.variants == db.variants && prev.nextId == db.nextId
    requires |prev.orders| == |db.orders| && |prev.lineItems| == |db.lineItems|
    requires FindOrder(db, o.id, tenantId).Some?
    requires LineItemsPresent(db, db.orders[FindOrder(db, o.id, tenantId).value].id, o.lineItems)
    ensures var r := UpsertOrder(prev, tenantId, o);
      |r.orders| == |db.orders| && |r.lineItems| == |db.lineItems| && r.nextId == db.nextId
  {
    FindKeySameKeys(db.orders, prev.orders, OrderKey, (o.id, tenantId));
    var (d, oid) := UpsertOrderRow(prev, tenantId, o);
    GrowsTransitive(db, prev, d);
    LineItemsPresentGrows(db, d, oid, o.lineItems);
    StagePresentLineItemsAddsNothing(d, oid, o.lineItems);
  }

  /** Re-ingesting the same orders adds no order and no line item the second time. */
  lemma OrdersTwiceAddsNothing(db: Database, tenantId: nat, os: seq<OrderJson>)
    ensures var once := StageOrders(db, tenantId, os);
      var twice := StageOrders(once, tenantId, os);
      |twice.orders| == |once.orders| && |twice.lineItems| == |once.lineItems| && twice.nextId == once.nextId
  {
    StageOrdersPresent(db, tenantId, os);
    StagePresentOrdersAddsNothing(StageOrders(db, tenantId, os), tenantId, os);
  }
}
