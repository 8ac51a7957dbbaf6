# Shopify ingestion service: the upsert core in Dafny

This project models the write path of a multi-tenant Shopify data-ingestion service.
- `update_tenant` registers a shop or updates its access token.
- Three endpoints pull a tenant's customers, products (with their variants) and orders (with their line items) from Shopify. They upsert them into a relational schema and commit once per call.

The model has three layers:

- **`Models`** (models.dfy): the six tables of `models.py` as row datatypes held in a `Database` value. It states:
  - the `unique=True` constraints, which are global and not per tenant;
  - the foreign keys, as well-formedness predicates;
  - the uniqueness of line-item (order, variant) pairs, which the schema does not declare;
  - `Grows`, which says how an ingestion may change the tables: rows only appended, primary and lookup keys kept.
- **`Reconcile`** (reconcile.dfy): the reconciliation as pure functions. It covers what one payload record stages (an upsert keyed by external id) and what a whole payload list stages, record after record. Lemmas show that staging keeps every foreign key valid.
- **`Ingest.Store`** (store.dfy): the endpoints as methods on a class that holds the session's working rows. Each method's loops carry invariants that tie the working state to the staging function over the prefix processed so far. Each endpoint's postcondition states the full outcome: 404, upstream 500, success with the payload's length, or rollback.

`Properties` and `Rerun` prove the promises of the upserts:
- insert versus update, and re-running a payload;
- the product link of a variant, the customer link of an order, and the skipping of line items with unknown variants;
- the effect of an external id that another tenant already holds.

`Decimal` relates the `DECIMAL(10, 2)` columns, kept as integer hundredths, to their decimal text. It stands beside the ingestion rather than inside it: the payload types already carry prices as hundredths, so no ingestion member calls it.

**How integrity errors surface.** Each endpoint wraps `db.commit()` in `except IntegrityError` and answers 409 (main.py:87-91, 161-165, 247-251), which suggests that every constraint violation answers 409. The model follows the code, which behaves differently:
- The database checks unique constraints when SQLAlchemy flushes. main.py flushes explicitly after a new product (main.py:131) or a new order (main.py:217). With autoflush, it also flushes before every query.
- Only `db.commit()` sits inside the `try` that turns an `IntegrityError` into 409. An error from an earlier flush escapes unhandled, and the web framework answers 500.
- For customers, each record's INSERT is sent by the query of the next record. So the batch gets 409 only when the first violating record is the last one, and 500 otherwise (`Ingest.CustomersOutcome`).
- For products, the only INSERT that can clash is a new product row, and it is flushed at once. New variants are looked up by `shopify_variant_id` across all tenants, exactly as wide as their unique constraint. Line items have no unique constraint. So the commit of products or orders never raises an `IntegrityError`, and those endpoints never answer 409.
- In every failing case the session is closed without a commit, so nothing of the batch survives.

Where the code reads a JSON field with `.get`, the payload datatypes (payload.dfy) hold an `Option`. A missing list (`data.get("customers", [])`) is the empty list. The Shopify fetch is a parameter (`Fetched`): the payload it returned, or the error it raised.

## Model

| member | source | states |
|---|---|---|
| Models.Unique | models.py:9-64 | the `unique=True` columns: no two tenants share a shop name (models.py:9), and no two rows of one table share a non-null Shopify id (models.py:21, 35, 48, 64); none of these is per tenant |
| Models.WellFormed | models.py:19-77 | the primary and foreign keys: ids are distinct within their table and below the counter, and every `tenant_id`, `product_id`, `order_id`, `variant_id` and non-null `customer_id` names an existing row (models.py:20, 34, 47, 62-63, 76-77) |
| Models.LineItemPairsUnique | models.py:73-79 | no two line items share an (order, variant) pair; the schema does not declare this, the order ingestion keeps it by looking the pair up first |
| Models.FindKey | main.py:64-67 | a `.first()` lookup: it finds the first row in insertion order whose key equals the filter; none exactly when no row matches |
| Models.GrowsKeepsIds | models.py:47 | a database that only grows keeps every primary key a foreign key may name |
| Models.ViolationPersists | models.py:21 | staging more rows never repairs a unique-constraint violation |
| Models.GrowsStaysWellFormed | models.py:76-77 | growing by at most one row per table, with valid foreign keys and a fresh id, keeps the database well formed |
| Models.GrowsKeepsCustomerLinks | models.py:63 | growing the customers while leaving the orders as they are keeps every order's customer link naming an existing customer |
| Reconcile.ResolveTenant | main.py:49-51 | the tenant is found exactly when a row has that primary key, and then it is that id |
| Reconcile.UpsertCustomer | main.py:64-85 | staging a customer only grows the database, leaves the other tables alone, and afterwards the record's (external id, tenant) has a row |
| Reconcile.StageCustomers | main.py:60-85 | a customer payload only grows the database and touches only the customers table |
| Reconcile.UpsertProductRow | main.py:113-133 | the product row is found afterwards and its id is the one the variants link to; updating a found row keeps the database unique |
| Reconcile.UpsertVariant | main.py:138-159 | staging a variant only grows the database, never breaks a unique constraint, and afterwards the variant's external id has a row |
| Reconcile.StageVariants | main.py:136-159 | a variant list only grows the database and never breaks a unique constraint |
| Reconcile.UpsertProduct | main.py:109-159 | one product record and its variants only grow the database |
| Reconcile.StageProducts | main.py:108-159 | a product payload only grows the database and leaves customers, orders and line items alone |
| Reconcile.ResolveCustomer | main.py:186-196 | the order's customer is found exactly when a non-empty `customer` object names an external id that a customer of the tenant holds, and then it is that customer's id |
| Reconcile.UpsertOrderRow | main.py:199-219 | the order row is found afterwards and its id is the one the line items link to; customers, products and variants are unchanged |
| Reconcile.UpsertLineItem | main.py:224-245 | a line item only grows the database, changes nothing but the line items and the id counter, keeps (order, variant) pairs unique, and leaves a row for a known variant |
| Reconcile.StageLineItems | main.py:222-245 | a line-item list changes only the line items, keeping (order, variant) pairs unique |
| Reconcile.UpsertOrder | main.py:184-245 | one order record never changes customers, products or variants and keeps line-item pairs unique |
| Reconcile.StageOrders | main.py:182-245 | an order payload never changes customers, products or variants and keeps line-item pairs unique |
| Reconcile.StageCustomersWellFormed | models.py:20 | staging customers of an existing tenant keeps every foreign key valid |
| Reconcile.StageProductsWellFormed | models.py:47 | staging products and variants keeps every foreign key valid |
| Reconcile.StageOrdersWellFormed | models.py:63 | staging orders keeps every foreign key valid, including customer links and line-item links |
| Reconcile.StageCustomersPrefixGrows | main.py:60 | the rows staged by a prefix of the payload grow into those of the whole payload |
| Reconcile.ProductRowViolationPersists | main.py:131 | a violation sent by the flush after a new product stays in the state the whole payload would stage |
| Reconcile.OrderRowViolationPersists | main.py:217 | a violation sent by the flush after a new order stays in the state the whole payload would stage |
| Ingest.Store.constructor | main.py:14 | an empty database satisfies every constraint |
| Ingest.Store.Rollback | main.py:89-90 | the working state is the snapshot again |
| Ingest.Store.UpdateTenant | main.py:22-44 | exactly one tenant has the shop name and holds the token; a row is created exactly when none had the name, otherwise only tokens change; other tables unchanged |
| Ingest.Store.StageCustomer | main.py:64-85 | the working state is the customer upsert of the previous one |
| Ingest.Store.StageProductRow | main.py:113-133 | the working state and the returned link id are those of the product-row upsert |
| Ingest.Store.StageProductVariants | main.py:136-159 | the variants loop leaves the state that staging the variant list describes |
| Ingest.Store.StageVariant | main.py:138-159 | the working state is the variant upsert of the previous one |
| Ingest.Store.StageProduct | main.py:109-159 | false exactly when the product is new and its flush is refused, and then the state is the product-row upsert alone; otherwise the state is the product upsert and stays unique |
| Ingest.Store.StageOrderRow | main.py:186-219 | the working state and the returned link id are those of the order-row upsert |
| Ingest.Store.StageOrderLineItems | main.py:222-245 | the line-item loop leaves the state that staging the line-item list describes |
| Ingest.Store.StageLineItem | main.py:224-245 | the working state is the line-item upsert of the previous one |
| Ingest.Store.StageOrder | main.py:184-245 | false exactly when the order is new and its flush is refused, and then the state is the order-row upsert alone; otherwise the state is the order upsert and stays unique |
| Ingest.Store.IngestCustomers | main.py:46-93 | 404 and unchanged for an unknown tenant; upstream 500 and unchanged when the fetch fails; otherwise the customers outcome |
| Ingest.Store.ReconcileCustomers | main.py:60-93 | committed as staged with the payload's length when the staged state is accepted, else rolled back; 409 exactly when only the commit sent the violation, 500 otherwise |
| Ingest.Store.IngestProducts | main.py:95-167 | 404 or upstream 500 unchanged; otherwise committed as staged with the payload's length, or rolled back with 500; never 409 |
| Ingest.Store.ReconcileProducts | main.py:108-167 | the product loop commits exactly the staged state when it is accepted, else rolls back with 500; never 409 |
| Ingest.Store.IngestOrders | main.py:169-253 | 404 or upstream 500 unchanged; otherwise committed as staged or rolled back with 500; never 409; never changes a customer; line-item pairs stay unique |
| Ingest.Store.ReconcileOrders | main.py:182-253 | the order loop commits exactly the staged state when it is accepted, else rolls back with 500; customers unchanged; line-item pairs unique |
| Ingest.CrossTenantCustomersRolledBack | main.py:64-67 | a customer whose external id belongs to another tenant fails the whole batch and leaves the database as it was |
| Ingest.CrossTenantProductsRolledBack | main.py:113-131 | the same for a product: the batch is rolled back with 500 |
| Ingest.CrossTenantOrdersRolledBack | main.py:199-217 | the same for an order: the batch is rolled back with 500 |
| Properties.UpsertCustomerInPlaceOrAppend | main.py:64-85 | an existing (external id, tenant) row gets the record's names, email and phone in place with no row added; otherwise exactly one row with the record's values is appended under the next id; no other row changes |
| Properties.UpsertProductInPlaceOrAppend | main.py:113-133 | the same for a product's title, vendor and type, and the link id is that row's id |
| Properties.UpsertVariantLinks | main.py:133-159 | a new variant links to the resolved product; an existing one keeps its id and product link and takes the title, price, sku, weight and unit |
| Properties.UpsertOrderLinksCustomer | main.py:186-216 | the order row's customer link is the resolved customer or null, also when overwriting an earlier link; the row is updated in place with every other order row unchanged, or one row is appended; customers unchanged |
| Properties.UpsertLineItemSkipsOrUpserts | main.py:224-245 | an unknown variant changes nothing; otherwise the (order, variant) row takes quantity and price in place with every other line item unchanged, or one row is appended |
| Properties.CustomersIdempotent | main.py:60-85 | staging the same customer payload a second time yields exactly the database of the first time |
| Properties.StageCustomersSettles | main.py:60-85 | after a payload every record has its row, holding the last record with that external id |
| Properties.StagePresentCustomers | main.py:69-74 | when every record has its row, staging overwrites each row with the last record that finds it and adds nothing |
| Properties.CrossTenantCustomerRefused | models.py:21 | a record whose external id another tenant's customer holds makes the staged state violate uniqueness |
| Properties.CrossTenantProductRefused | models.py:35 | the same for products |
| Properties.CrossTenantOrderRefused | models.py:64 | the same for orders |
| Rerun.ProductsTwiceAddsNothing | main.py:113-159 | staging the same product payload a second time adds no product, no variant and takes no id |
| Rerun.OrdersTwiceAddsNothing | main.py:199-245 | staging the same order payload a second time adds no order, no line item and takes no id |
| Rerun.StageProductsPresent | main.py:113-159 | after a product payload every product and variant record has its row |
| Rerun.StageOrdersPresent | main.py:199-245 | after an order payload every order and every line item of a known variant has its row |
| Decimal.ParseRender | models.py:50 | every two-place value reads back exactly from the decimal text it prints as |
| Decimal.Render | models.py:65 | the text has exactly two places after the point, and a minus exactly for a negative value |
| Decimal.Parse | models.py:50 | accepted text starts with a digit, or a minus and a digit, and holds only digits and points; a point followed by more than two characters is refused; the value is negative only after a leading minus |
| Decimal.RenderFits | models.py:50 | a value fits `DECIMAL(10, 2)` exactly when its text has at most eight digits before the point |

## Left out

- The Shopify HTTP client (shopify.py) and its network I/O: the fetched payload or the raised error is a parameter.
- FastAPI routing and dependency injection, and the `database` module that builds the session, are not part of this model. The session is assumed to use SQLAlchemy's default `autoflush=True`, and to roll back when it is closed without a commit.
- Only the flushes at which a violation can first surface are checked: the autoflush before each customer lookup, and the flushes after a new product or order row. At every other flush nothing staged since the previous check can clash.
- Concurrency: two ingestions racing on the same lookups.
- Timestamps (`created_at`, `updated_at`): server defaults with no logic.
- The id counter is restored on rollback. A real database sequence would not give back the ids it handed out; only their values would differ.
- One id counter serves all six tables, whereas each table's primary key would have its own database sequence. The ids a run hands out therefore differ from the database's; only their freshness within each table is modelled.
- `.first()` without `ORDER BY` is modelled as the first row in insertion order.
- Integer widths: `Integer` and `BigInteger` columns are unbounded integers here, with no overflow.
- A payload whose list fields are not lists (an error in Python) is not modelled; the payload types only admit well-typed JSON.
- A price, weight or total that does not fit `DECIMAL(10, 2)` (models.py:50, 52, 65, 79), such as a variant price of 123456789.00, makes the flush or the commit raise a `DataError`. That is not an `IntegrityError`, so it escapes the `try`; the program answers 500 and commits nothing. The model does not check the column precision: it commits such a batch.
- Decimal.Parse: its grammar is only an optional minus, digits, and an optional point with at most two digits after it (the `d+.dd` form the upstream service sends). It refuses text the database's numeric input would accept: more than two places (which the database rounds), a leading point (".5"), a plus sign ("+1.00"), surrounding blanks and exponents ("1e2"). It does not check the ten-digit precision (`Decimal.RenderFits` ties that bound to the text, but no operation enforces it).
- Rerun.ProductsTwiceAddsNothing: states only that the second run adds no rows, not that it leaves the field values unchanged the way `Properties.CustomersIdempotent` does for customers. The customer proof rests on a reference table (`Touched`) that names, for each row, the last record that writes it. For products that reference would have to cover two tables at once, because a later product's record can rewrite a variant row staged under an earlier one. The model does not define that reference.
- Rerun.OrdersTwiceAddsNothing: states only that the second run adds no rows, not that it leaves the field values unchanged. The reason is the same as for products: orders and their line items would need a joint reference table, and the model does not define one.
- databasemanager.py (read-only analytic SQL) and dashboard.py (the Streamlit interface) are outside the ingestion core.
