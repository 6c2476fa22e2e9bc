# Partner price-list ingestion, modelled in Dafny

This project models the partner price-list endpoint of the shop backend,
`PartnerUpdate.post` in `backend/views.py`, together with the catalog tables
of `backend/models.py` that it writes. A shop user posts the URL of a YAML
price list. The view checks the user and the URL, downloads and decodes the
document, and then reconciles the document with the catalog:

1. it finds or creates the shop by (name, owner);
2. it finds or creates every listed category by (id, name) and links it to the shop;
3. it deletes all of the shop's offers, which cascades to their parameter rows;
4. for every good it finds or creates the product by (name, category), creates
   a fresh offer, and for every parameter pair finds or creates the parameter
   by name and creates one parameter row.

The modules follow that structure:

- `Models.dfy` holds the record shapes of the catalog tables, one map per
  table in the `Db` value. It also holds the state invariant `Consistent`
  (every foreign key resolves, natural keys are unique), the lookups that
  `get_or_create` performs, and the cascading delete.
- `Feed.dfy` holds the decoded price list.
- `Database.dfy` holds the class `Store`. Its fields are the tables and the
  primary-key sequences, and it has one method per ORM call that the view
  makes. A database constraint failure is reported by `ok == false` and
  changes nothing.
- `Reconcile.dfy` states what a run does, as predicates on the tables before
  and after it (`Reconciled`). It also holds the category merge as a function
  and the lemmas: the merge succeeds exactly when the categories agree, the
  merge is idempotent, there is one offer per good and one row per parameter
  entry, and a second run of the same feed is stable.
- `Steps.dfy` holds the per-iteration lemmas that the loops in `Views.dfy`
  use.
- `Views.dfy` holds the request checks (`Gate`), the loops of the view as
  methods on the `Store`, and `Post`.

Fetching and decoding are a parameter `fetch: string -> Option<Document>`.
`None` stands for the failures that come before any write: an exception
raised while downloading or decoding, a document that is not a mapping, and a
document without the `shop` key (read first, on views.py line 49).
Django's `URLValidator` is a parameter
`validUrl: string -> bool`.

The code behaves as follows, where one might expect otherwise:

- There is no transaction. A constraint failure part-way through a run is an
  uncaught `IntegrityError` (a server error reply). Every write made before it
  stays. If the failure comes while the goods are being written, the shop's
  previous offers are already deleted, and a good rejected for a negative
  number has already had its product created. `Reconciled` states this outcome.
- The shop is keyed on (name, owner). A feed with a new shop name creates a
  second shop for the same user rather than renaming the first one.
- A category is looked up by id **and** name. A listed id that is stored under
  another name is not renamed: the insert collides on the primary key and the
  run fails.
- A product is keyed on (name, category). The same name under another
  category is a new product.
- External ids of offers are not checked for uniqueness. Nothing in the view
  or the tables rejects an id that another shop already uses.
- A missing or invalid URL is answered with HTTP 200 and `Status: false`, not
  with a client error. The missing-URL reply uses the key `Errors`; the other
  replies use `Error`.
- models.py and views.py disagree on field names:
  - views.py writes `Shop.user_id`, `ProductInfo.external_id` and
    `ProductInfo.model`, and models.py declares none of them;
  - views.py writes `Product.category_id` where models.py declares `categoty`;
  - views.py imports `MyUser`, which models.py does not define.

  The model uses the fields as views.py writes them. `ProductInfo.name` is
  declared but never written, so it keeps the empty default.

## Model

| member | source | states |
|---|---|---|
| Models.FindShop | diplom_project/backend/views.py:49 | the lookup of `get_or_create(name, user_id)`: a found id is a shop with that name and owner; none means no shop has both |
| Models.FindProduct | diplom_project/backend/views.py:56 | the lookup of `get_or_create(name, category_id)`: a found id holds exactly that product; none means the product is absent |
| Models.FindParameter | diplom_project/backend/views.py:66 | the lookup of `get_or_create(name)`: a found id is a parameter of that name; none means no parameter has it |
| Models.CascadeDelete | diplom_project/backend/models.py:63 | deleting offers removes exactly those offers and exactly the parameter rows pointing at them, leaves every other row and table unchanged, and keeps the tables consistent |
| Database.InsertShop | diplom_project/backend/views.py:49 | a fresh shop whose (name, owner) is new keeps the tables consistent |
| Database.InsertCategory | diplom_project/backend/models.py:25-28 | a category under a fresh id keeps the tables consistent |
| Database.InsertLink | diplom_project/backend/models.py:28 | a shop-category pair between existing rows keeps the tables consistent |
| Database.InsertProduct | diplom_project/backend/models.py:37 | a new product whose category exists keeps the tables consistent |
| Database.InsertInfo | diplom_project/backend/models.py:49-50 | an offer whose product and shop exist keeps the tables consistent |
| Database.InsertParameter | diplom_project/backend/views.py:66 | a parameter with a new name keeps the tables consistent |
| Database.InsertRow | diplom_project/backend/models.py:63-64 | a parameter row whose offer and parameter exist keeps the tables consistent |
| Database.DeleteShrinks | diplom_project/backend/views.py:54 | the cascading delete only removes offer and row ids and keeps the tables consistent |
| Database.Store.GetOrCreateShop | diplom_project/backend/views.py:49 | returns the existing shop with that name and owner, or adds exactly one shop with an empty url; no other table changes |
| Database.Store.GetOrCreateCategory | diplom_project/backend/views.py:51 | succeeds exactly when the id is absent or stored under the same name; on success the id maps to that name, and on failure nothing changes |
| Database.Store.AddShopToCategory | diplom_project/backend/views.py:52-53 | adds exactly the one (category, shop) pair; adding a pair already there changes nothing |
| Database.Store.DeleteShopOffers | diplom_project/backend/views.py:54 | the new tables are the cascade delete of the shop's offers, and the shop owns no offer afterwards |
| Database.Store.GetOrCreateProduct | diplom_project/backend/views.py:56 | fails exactly when the category is missing; otherwise returns the existing product with that name and category, or adds exactly one |
| Database.Store.CreateProductInfo | diplom_project/backend/views.py:58-64 | succeeds exactly when price, recommended price and quantity are non-negative; then adds one offer under a fresh id carrying the good's fields |
| Database.Store.GetOrCreateParameter | diplom_project/backend/views.py:66 | returns the existing parameter of that name, or adds exactly one |
| Database.Store.CreateProductParameter | diplom_project/backend/views.py:67-69 | adds exactly one parameter row under a fresh id with that offer, parameter and value |
| Reconcile.MergeCategories | diplom_project/backend/views.py:50-51 | the category table after the loop's `get_or_create` calls: it holds the stored ids plus the listed ids, keeps every stored row, and gives every listed id its listed name |
| Reconcile.MergeSucceedsIff | diplom_project/backend/views.py:50-51 | the category loop gets through exactly when no listed id contradicts a stored name or a name listed for the same id |
| Reconcile.MergeSplit | diplom_project/backend/views.py:50-51 | the loop over a list is the loop over a prefix followed by the loop over the rest, started from the table the prefix leaves |
| Reconcile.CollisionFails | diplom_project/backend/views.py:50-51 | an entry that collides with the table the entries before it leave makes the whole category merge fail |
| Reconcile.MergeIdempotent | diplom_project/backend/views.py:50-53 | merging the same categories into the merged table changes nothing |
| Reconcile.OneRowPerEntry | diplom_project/backend/views.py:65-69 | an offer's parameter rows number exactly its parameter entries |
| Reconcile.OneOfferPerGood | diplom_project/backend/views.py:54-64 | after a successful run the shop's offers are exactly the new rows, one per good |
| Reconcile.NoNewProducts | diplom_project/backend/views.py:56 | when every product of the goods already exists, the goods loop adds no product |
| Reconcile.NoNewParameters | diplom_project/backend/views.py:66 | when every parameter name of the goods already exists, the goods loop adds no parameter |
| Reconcile.SameShop | diplom_project/backend/views.py:49 | a second run for the same owner and shop name resolves the same shop and adds none |
| Reconcile.SameOffers | diplom_project/backend/views.py:58-64 | two offers created from the same good over the same products are equal rows |
| Reconcile.SameRows | diplom_project/backend/views.py:67-69 | parameter rows created from the same entries over the same parameters differ only in their offer |
| Reconcile.FirstRunSettled | diplom_project/backend/views.py:50-53 | after a successful run the feed is accepted again, its categories merge to the same table and its links are already present |
| Reconcile.SecondRunRepeats | diplom_project/backend/views.py:50-69 | a successful run over a settled store leaves the categories, links, products and parameters as they are and recreates equal offers and rows |
| Reconcile.ReingestIsStable | diplom_project/backend/views.py:49-69 | ingesting the same feed twice: the second run succeeds, reuses the shop, adds no row to the shared tables, and recreates the same offers and parameter rows up to their ids |
| Views.Gate | diplom_project/backend/views.py:31-43 | proceeds exactly for a logged-in shop user with a non-empty URL the validator accepts; 403 exactly for the first two checks; the missing-URL reply (line 73) is HTTP 200 under the key `Errors` |
| Views.AttachParameters | diplom_project/backend/views.py:65-69 | one new parameter row per entry, in order, each holding its entry's value under the parameter with the entry's name; parameters are only added for those names |
| Views.IngestGood | diplom_project/backend/views.py:56-69 | succeeds exactly when the good's category exists and its numbers are non-negative; then one fresh offer matching the good with its parameter rows; on failure only the product table may have grown, and the good's product exists whenever its category does (the product is created before the offer insert fails) |
| Views.LinkCategories | diplom_project/backend/views.py:50-53 | succeeds exactly when the category merge does; then the category table is the merge and the links are the old ones plus one per listed category; on failure some entry collides with the table that the entries before it leave, that table is the category table, and only those entries are linked; the other tables are untouched either way |
| Views.ReplaceOffers | diplom_project/backend/views.py:55-69 | on success the shop's offers are exactly one per good with their rows; on failure the goods before the rejected one have their offers and rows, the rejected good's product exists exactly when its category does, other shops' offers and rows are untouched, and the old offers stay deleted |
| Views.Ingest | diplom_project/backend/views.py:49-69 | the tables before and after satisfy `Reconciled`: the run succeeds exactly when the feed is accepted; a category collision leaves the merge and links of the entries before it and no other change; a rejected good leaves the merged categories and links, the offers and rows of the goods before it, its own product exactly when its category exists, other shops' offers and rows untouched, and none of the shop's old offers |
| Views.Post | diplom_project/backend/views.py:22-73 | a rejected request or a failed fetch changes nothing; otherwise the reply is success exactly when the feed is accepted, else a server error, and the tables satisfy `Reconciled` for that outcome |

## Left out

- Views.Post: downloading the URL and decoding the YAML are the parameter `fetch`; a network error, a decoding error, a document that is no mapping and a missing `shop` key all appear as `None` (a server error reply, nothing written) rather than as separate exceptions.
- Views.Post: a price list without the `categories` or `goods` key, with a category entry that lacks `id` or `name`, with a category id that is not an integer, or with a good that lacks one of its keys, is not a `Document` and is not modelled. The view raises `KeyError` part-way through such a list and keeps every earlier write. For example, without `goods` the shop is resolved, the categories are merged and linked, and the shop's offers are deleted before the error. A category entry without `id` or `name` raises at views.py line 51 after the shop and the earlier entries with their links are written; a non-integer id fails the same way in Django's field conversion. A good without `parameters` leaves its product and its offer with no parameter rows. The model does not capture these partial writes.
- Views.Gate: `URLValidator` is the parameter `validUrl`; its message text is not modelled, only that the reply carries one.
- Database.Store.CreateProductInfo: does not reject numbers above 2147483647, the upper bound of a PositiveIntegerField on most databases, because that bound depends on the database backend.
- Database.Store.GetOrCreateShop: `MultipleObjectsReturned` is not modelled; the store invariant keeps (name, owner) unique, which holds for every store the view itself builds; a duplicate added outside this view makes the view raise, which the model does not cover.
- Database.Store.GetOrCreateProduct: `MultipleObjectsReturned` is not modelled. The store invariant keeps (name, category) unique, but models.py declares no unique constraint on Product, and rows added outside this view (for example through the admin site) can duplicate a key; the view then raises and the model does not cover it.
- Database.Store.GetOrCreateParameter: `MultipleObjectsReturned` is not modelled. The store invariant keeps parameter names unique, but models.py declares no unique constraint on Parameter, and rows added outside this view can duplicate a name; the view then raises and the model does not cover it.
- The numbers and ids of a good are integers; a YAML value of another type, which Django would coerce or reject depending on the backend, is not modelled.
- The parameter mapping of a good is a sequence of (name, value) pairs in the mapping's iteration order; a sequence may repeat a name, which a decoded mapping cannot, and the model handles that case the same way the loop would.
- The `max_length` limits of the character fields are not modelled. The view does not check them. PostgreSQL and MySQL in strict mode reject an over-long value with a `DataError`; SQLite stores it. So a parameter value longer than 100 characters (models.py line 65) fails the run on those databases after the shop's offers are deleted, with the earlier writes kept, as an `IntegrityError` does. The same holds for over-long shop, category, product and parameter names (50 or 100 characters). The model accepts every length.
- Name lookups compare strings exactly. On MySQL's default case-insensitive collation, the `get_or_create` calls for the shop, the categories, the products and the parameters (views.py lines 49, 51, 56 and 66) reuse a row whose name differs only in letter case, so the lookups `FindShop`, `FindProduct`, `FindParameter` and the category merge do not match that backend; the model follows exact comparison, as PostgreSQL and SQLite do.
- `category_object.save()` writes back an unchanged row and is not modelled separately.
- Concurrency: two requests running at the same time, and the races of `get_or_create`, are not modelled; each request runs alone.
- Order, OrderItem, Contact, the user model and `STATUS_CHOICES` are not used by the endpoint and are not modelled; neither are the `__str__` methods, the admin registrations and the URL routing.
