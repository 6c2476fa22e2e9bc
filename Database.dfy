// The catalog store as the ingestion code sees it through Django's ORM: one
// mutable table per model and the primary-key sequences that hand out fresh
// ids. Each method is one ORM call made by backend/views.py; a constraint the
// database enforces (a primary-key collision, a missing foreign key, a
// negative PositiveIntegerField) is reported by `ok == false` and leaves the
// tables as they were, as the failed statement does.

module Database {
  import opened Models

  // Each single-row write that the database accepts keeps the tables consistent.

  lemma InsertShop(d: Db, id: nat, s: Shop)
    requires Consistent(d) && id !in d.shops
    requires forall x :: x in d.shops ==> d.shops[x].name != s.name || d.shops[x].userId != s.userId
    ensures Consistent(d.(shops := d.shops[id := s]))
  {
  }

  lemma InsertCategory(d: Db, id: int, c: Category)
    requires Consistent(d) && id !in d.categories
    ensures Consistent(d.(categories := d.categories[id := c]))
  {
  }

  lemma InsertLink(d: Db, categoryId: int, shopId: nat)
    requires Consistent(d) && categoryId in d.categories && shopId in d.shops
    ensures Consistent(d.(categoryShops := d.categoryShops + {(categoryId, shopId)}))
  {
  }

  lemma InsertProduct(d: Db, id: nat, p: Product)
    requires Consistent(d) && id !in d.products && p.categoryId in d.categories && p !in d.products.Values
    ensures Consistent(d.(products := d.products[id := p]))
  {
  }

  lemma InsertInfo(d: Db, id: nat, info: ProductInfo)
    requires Consistent(d) && id !in d.productInfos && info.productId in d.products && info.shopId in d.shops
    ensures Consistent(d.(productInfos := d.productInfos[id := info]))
  {
  }

  lemma InsertParameter(d: Db, id: nat, p: Parameter)
    requires Consistent(d) && id !in d.parameters && p !in d.parameters.Values
    ensures Consistent(d.(parameters := d.parameters[id := p]))
  {
  }

  lemma InsertRow(d: Db, id: nat, row: ProductParameter)
    requires Consistent(d) && id !in d.productParameters
    requires row.productInfoId in d.productInfos && row.parameterId in d.parameters
    ensures Consistent(d.(productParameters := d.productParameters[id := row]))
  {
  }

  /** Deleting offers with their parameter rows only removes ids. */
  lemma DeleteShrinks(d: Db, doomed: set<nat>)
    requires Consistent(d)
    ensures Consistent(CascadeDelete(d, doomed))
    ensures CascadeDelete(d, doomed).productInfos.Keys <= d.productInfos.Keys
    ensures CascadeDelete(d, doomed).productParameters.Keys <= d.productParameters.Keys
  {
  }

  class Store {
    var shops: map<nat, Shop>
    var categories: map<int, Category>
    var categoryShops: set<(int, nat)>
    var products: map<nat, Product>
    var productInfos: map<nat, ProductInfo>
    var parameters: map<nat, Parameter>
    var productParameters: map<nat, ProductParameter>

    // primary-key sequences of the tables whose ids the database assigns
    var nextShopId: nat
    var nextProductId: nat
    var nextInfoId: nat
    var nextParameterId: nat
    var nextRowId: nat

    /** The tables as one value. */
    function Snapshot(): Db
      reads this
    {
      Db(shops, categories, categoryShops, products, productInfos, parameters, productParameters)
    }

    ghost predicate Valid()
      reads this
    {
      && Consistent(Snapshot())
      && (forall id :: id in shops ==> id < nextShopId)
      && (forall id :: id in products ==> id < nextProductId)
      && (forall id :: id in productInfos ==> id < nextInfoId)
      && (forall id :: id in parameters ==> id < nextParameterId)
      && (forall id :: id in productParameters ==> id < nextRowId)
    }

    constructor ()
      ensures Valid() && Snapshot() == EmptyDb
    {
      shops, categories, categoryShops := map[], map[], {};
      products, productInfos, parameters, productParameters := map[], map[], map[], map[];
      nextShopId, nextProductId, nextInfoId, nextParameterId, nextRowId := 0, 0, 0, 0, 0;
    }

    /** `Shop.objects.get_or_create(name=name, user_id=userId)`: the existing shop
        with that name and owner, or a fresh one whose `url` is the empty default. */
    method GetOrCreateShop(name: string, userId: nat) returns (id: nat)
      requires Valid()
      modifies this
      ensures Valid() && old(nextInfoId) <= nextInfoId
      ensures id in shops && shops[id].name == name && shops[id].userId == userId
      ensures old(FindShop(shops, name, userId)).Some? ==>
                id == old(FindShop(shops, name, userId)).value && shops == old(shops)
      ensures old(FindShop(shops, name, userId)).None? ==>
                id !in old(shops) && shops == old(shops)[id := Shop(name, "", userId)]
      ensures Snapshot().(shops := old(shops)) == old(Snapshot())
    {
      var found := FindShop(shops, name, userId);
      match found
      case Some(existing) =>
        id := existing;
      case None =>
        id := nextShopId;
        InsertShop(Snapshot(), id, Shop(name, "", userId));
        shops := shops[id := Shop(name, "", userId)];
        nextShopId := nextShopId + 1;
    }

    /** `Category.objects.get_or_create(id=id, name=name)`. A row with this id and
        name is reused; otherwise a row with this id is inserted, which collides
        with an existing row of the same id under another name. */
    method GetOrCreateCategory(id: int, name: string) returns (ok: bool)
      requires Valid()
      modifies this
      ensures Valid() && old(nextInfoId) <= nextInfoId
      ensures ok <==> (id in old(categories) ==> old(categories)[id].name == name)
      ensures ok ==> categories == old(categories)[id := Category(name)]
      ensures !ok ==> categories == old(categories)
      ensures Snapshot().(categories := old(categories)) == old(Snapshot())
    {
      if id in categories {
        ok := categories[id].name == name;
      } else {
        ok := true;
        InsertCategory(Snapshot(), id, Category(name));
        categories := categories[id := Category(name)];
      }
    }

    /** `category.shops.add(shopId)` followed by `category.save()`: adds one pair
        to the join table; adding a pair that is already there changes nothing. */
    method AddShopToCategory(categoryId: int, shopId: nat)
      requires Valid() && categoryId in categories && shopId in shops
      modifies this
      ensures Valid() && old(nextInfoId) <= nextInfoId
      ensures categoryShops == old(categoryShops) + {(categoryId, shopId)}
      ensures (categoryId, shopId) in old(categoryShops) ==> categoryShops == old(categoryShops)
      ensures Snapshot().(categoryShops := old(categoryShops)) == old(Snapshot())
    {
      InsertLink(Snapshot(), categoryId, shopId);
      categoryShops := categoryShops + {(categoryId, shopId)};
    }

    /** `ProductInfo.objects.filter(shop_id=shopId).delete()`, with the cascade to
        ProductParameter. */
    method DeleteShopOffers(shopId: nat)
      requires Valid()
      modifies this
      ensures Valid() && old(nextInfoId) <= nextInfoId
      ensures Snapshot() == CascadeDelete(old(Snapshot()), OffersOf(old(productInfos), shopId))
      ensures OffersOf(productInfos, shopId) == {}
    {
      var doomed := OffersOf(productInfos, shopId);
      DeleteShrinks(Snapshot(), doomed);
      var after := CascadeDelete(Snapshot(), doomed);
      productInfos, productParameters := after.productInfos, after.productParameters;
    }

    /** `Product.objects.get_or_create(name=name, category_id=categoryId)`. The
        insert fails on the foreign key when no category has that id. */
    method GetOrCreateProduct(name: string, categoryId: int) returns (ok: bool, id: nat)
      requires Valid()
      modifies this
      ensures Valid() && old(nextInfoId) <= nextInfoId
      ensures ok <==> categoryId in old(categories)
      ensures ok ==> id in products && products[id] == Product(name, categoryId)
      ensures old(FindProduct(products, Product(name, categoryId))).Some? ==>
                ok && id == old(FindProduct(products, Product(name, categoryId))).value && products == old(products)
      ensures ok && old(FindProduct(products, Product(name, categoryId))).None? ==>
                id !in old(products) && products == old(products)[id := Product(name, categoryId)]
      ensures !ok ==> products == old(products)
      ensures Snapshot().(products := old(products)) == old(Snapshot())
    {
      var found := FindProduct(products, Product(name, categoryId));
      match found
      case Some(existing) =>
        ok, id := true, existing;
      case None =>
        if categoryId in categories {
          ok, id := true, nextProductId;
          InsertProduct(Snapshot(), id, Product(name, categoryId));
          products := products[id := Product(name, categoryId)];
          nextProductId := nextProductId + 1;
        } else {
          ok, id := false, 0;
        }
    }

    /** `ProductInfo.objects.create(...)`: a fresh offer row. The CHECK
        constraints of the three PositiveIntegerField columns reject a negative
        quantity, price or recommended price. */
    method CreateProductInfo(externalId: int, model: string, price: int, priceRrc: int, quantity: int,
                             productId: nat, shopId: nat)
      returns (ok: bool, id: nat)
      requires Valid() && productId in products && shopId in shops
      modifies this
      ensures Valid() && old(nextInfoId) <= nextInfoId
      ensures ok <==> price >= 0 && priceRrc >= 0 && quantity >= 0
      ensures ok ==> id !in old(productInfos) && old(nextInfoId) <= id
      ensures ok ==> (productInfos ==
                old(productInfos)[id := ProductInfo("", externalId, model, quantity, price, priceRrc, productId, shopId)])
      ensures !ok ==> productInfos == old(productInfos)
      ensures Snapshot().(productInfos := old(productInfos)) == old(Snapshot())
    {
      if price >= 0 && priceRrc >= 0 && quantity >= 0 {
        ok, id := true, nextInfoId;
        InsertInfo(Snapshot(), id, ProductInfo("", externalId, model, quantity, price, priceRrc, productId, shopId));
        productInfos := productInfos[id := ProductInfo("", externalId, model, quantity, price, priceRrc, productId, shopId)];
        nextInfoId := nextInfoId + 1;
      } else {
        ok, id := false, 0;
      }
    }

    /** `Parameter.objects.get_or_create(name=name)`. */
    method GetOrCreateParameter(name: string) returns (id: nat)
      requires Valid()
      modifies this
      ensures Valid() && old(nextInfoId) <= nextInfoId
      ensures id in parameters && parameters[id] == Parameter(name)
      ensures old(FindParameter(parameters, name)).Some? ==>
                id == old(FindParameter(parameters, name)).value && parameters == old(parameters)
      ensures old(FindParameter(parameters, name)).None? ==>
                id !in old(parameters) && parameters == old(parameters)[id := Parameter(name)]
      ensures Snapshot().(parameters := old(parameters)) == old(Snapshot())
    {
      var found := FindParameter(parameters, name);
      match found
      case Some(existing) =>
        id := existing;
      case None =>
        id := nextParameterId;
        InsertParameter(Snapshot(), id, Parameter(name));
        parameters := parameters[id := Parameter(name)];
        nextParameterId := nextParameterId + 1;
    }

    /** `ProductParameter.objects.create(...)`: a fresh parameter row. */
    method CreateProductParameter(productInfoId: nat, parameterId: nat, value: string) returns (id: nat)
      requires Valid() && productInfoId in productInfos && parameterId in parameters
      modifies this
      ensures Valid() && old(nextInfoId) <= nextInfoId
      ensures id !in old(productParameters)
      ensures productParameters == old(productParameters)[id := ProductParameter(productInfoId, parameterId, value)]
      ensures Snapshot().(productParameters := old(productParameters)) == old(Snapshot())
    {
      id := nextRowId;
      InsertRow(Snapshot(), id, ProductParameter(productInfoId, parameterId, value));
      productParameters := productParameters[id := ProductParameter(productInfoId, parameterId, value)];
      nextRowId := nextRowId + 1;
    }
  }
}
