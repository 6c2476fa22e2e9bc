// Record shapes of the catalog tables (backend/models.py) together with the
// referential-integrity and natural-key facts every table state must satisfy,
// the lookups that Django's `get_or_create` performs, and the cascade that a
// ProductInfo delete triggers.

module Models {

  datatype Option<T> = None | Some(value: T)

  /** A shop. `userId` is the owner column that views.py filters on; models.py
      declares no such field (it declares only `name` and `url`). */
  datatype Shop = Shop(name: string, url: string, userId: nat)

  /** A category; its many-to-many `shops` relation lives in `Db.categoryShops`. */
  datatype Category = Category(name: string)

  /** A product. `categoryId` is the foreign key views.py writes as `category_id`;
      models.py spells the field `categoty`. */
  datatype Product = Product(name: string, categoryId: int)

  /** One shop's offer. `externalId` and `model` are written by views.py but are
      not declared in models.py; `name` is declared there and never written, so it
      keeps Django's default for a character field, the empty string.
      The three PositiveIntegerField columns are `nat`. */
  datatype ProductInfo = ProductInfo(
    name: string,
    externalId: int,
    model: string,
    quantity: nat,
    price: nat,
    priceRrc: nat,
    productId: nat,
    shopId: nat)

  datatype Parameter = Parameter(name: string)

  datatype ProductParameter = ProductParameter(productInfoId: nat, parameterId: nat, value: string)

  /** The catalog tables, each a map from primary key to row. Category keys are
      the ids the price list supplies; `categoryShops` is the Category-Shop join
      table as a set of (category id, shop id) pairs, so a pair occurs at most once. */
  datatype Db = Db(
    shops: map<nat, Shop>,
    categories: map<int, Category>,
    categoryShops: set<(int, nat)>,
    products: map<nat, Product>,
    productInfos: map<nat, ProductInfo>,
    parameters: map<nat, Parameter>,
    productParameters: map<nat, ProductParameter>)

  const EmptyDb := Db(map[], map[], {}, map[], map[], map[], map[])

  /** Every foreign key points at an existing row. */
  ghost predicate ReferencesIntact(d: Db) {
    && (forall p :: p in d.products ==> d.products[p].categoryId in d.categories)
    && (forall i :: i in d.productInfos ==>
          d.productInfos[i].productId in d.products && d.productInfos[i].shopId in d.shops)
    && (forall r :: r in d.productParameters ==>
          d.productParameters[r].productInfoId in d.productInfos &&
          d.productParameters[r].parameterId in d.parameters)
    && (forall link :: link in d.categoryShops ==> link.0 in d.categories && link.1 in d.shops)
  }

  /** (name, owner) identifies at most one shop. */
  ghost predicate ShopKeysUnique(shops: map<nat, Shop>) {
    forall a, b ::
      a in shops && b in shops && shops[a].name == shops[b].name && shops[a].userId == shops[b].userId
      ==> a == b
  }

  /** (name, category) identifies at most one product. */
  ghost predicate ProductKeysUnique(products: map<nat, Product>) {
    forall a, b :: a in products && b in products && products[a] == products[b] ==> a == b
  }

  /** A name identifies at most one parameter. */
  ghost predicate ParameterKeysUnique(parameters: map<nat, Parameter>) {
    forall a, b :: a in parameters && b in parameters && parameters[a] == parameters[b] ==> a == b
  }

  ghost predicate KeysUnique(d: Db) {
    ShopKeysUnique(d.shops) && ProductKeysUnique(d.products) && ParameterKeysUnique(d.parameters)
  }

  /** The state invariant of the catalog store. */
  ghost predicate Consistent(d: Db) {
    ReferencesIntact(d) && KeysUnique(d)
  }

  /** The lookup half of `Shop.objects.get_or_create(name=..., user_id=...)`. */
  function FindShop(shops: map<nat, Shop>, name: string, userId: nat): (r: Option<nat>)
    requires ShopKeysUnique(shops)
    ensures r.Some? ==> r.value in shops && shops[r.value].name == name && shops[r.value].userId == userId
    ensures r.None? ==> forall id :: id in shops ==> shops[id].name != name || shops[id].userId != userId
  {
    if exists id :: id in shops && shops[id].name == name && shops[id].userId == userId then
      Some(var id :| id in shops && shops[id].name == name && shops[id].userId == userId; id)
    else
      None
  }

  /** The lookup half of `Product.objects.get_or_create(name=..., category_id=...)`. */
  function FindProduct(products: map<nat, Product>, key: Product): (r: Option<nat>)
    requires ProductKeysUnique(products)
    ensures r.Some? ==> r.value in products && products[r.value] == key
    ensures r.None? ==> key !in products.Values
  {
    if exists id :: id in products && products[id] == key then
      Some(var id :| id in products && products[id] == key; id)
    else
      None
  }

  /** The lookup half of `Parameter.objects.get_or_create(name=...)`. */
  function FindParameter(parameters: map<nat, Parameter>, name: string): (r: Option<nat>)
    requires ParameterKeysUnique(parameters)
    ensures r.Some? ==> r.value in parameters && parameters[r.value].name == name
    ensures r.None? ==> Parameter(name) !in parameters.Values
  {
    if exists id :: id in parameters && parameters[id] == Parameter(name) then
      Some(var id :| id in parameters && parameters[id] == Parameter(name); id)
    else
      None
  }

  /** The ids of the ProductInfo rows a shop owns: the reference definition of
      `ProductInfo.objects.filter(shop_id=...)`, which
      `Database.Store.DeleteShopOffers` and `Reconcile.OneOfferPerGood` are
      stated against. */
  function OffersOf(infos: map<nat, ProductInfo>, shopId: nat): set<nat> {
    set i | i in infos && infos[i].shopId == shopId
  }

  /** Deleting the ProductInfo rows `doomed`: `on_delete=CASCADE` on
      ProductParameter.product_info removes exactly the parameter rows that
      reference a deleted offer. No other table references ProductInfo. */
  function CascadeDelete(d: Db, doomed: set<nat>): (r: Db)
    ensures r.shops == d.shops && r.categories == d.categories && r.categoryShops == d.categoryShops
    ensures r.products == d.products && r.parameters == d.parameters
    ensures forall i :: i in r.productInfos <==> i in d.productInfos && i !in doomed
    ensures forall i :: i in r.productInfos ==> r.productInfos[i] == d.productInfos[i]
    ensures forall p :: p in r.productParameters <==>
              p in d.productParameters && d.productParameters[p].productInfoId !in doomed
    ensures forall p :: p in r.productParameters ==> r.productParameters[p] == d.productParameters[p]
    ensures Consistent(d) ==> Consistent(r)
  {
    d.(productInfos := map i | i in d.productInfos && i !in doomed :: d.productInfos[i],
       productParameters := map p | p in d.productParameters && d.productParameters[p].productInfoId !in doomed
                                :: d.productParameters[p])
  }
}
