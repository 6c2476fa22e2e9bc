// The partner price-list endpoint, `PartnerUpdate.post` in backend/views.py:
// the request checks, then the reconciliation of the decoded price list with
// the catalog, statement by statement and without a surrounding transaction.
// Fetching the URL and decoding the YAML document are an oracle `fetch`,
// Django's URLValidator an oracle `validUrl`.

module Views {
  import opened Models
  import opened Feed
  import opened Database
  import opened Reconcile
  import opened Steps

  /** The user attached to the request. `role` is the user's `type` column. */
  datatype Principal = Anonymous | Member(id: nat, role: string)

  /** The request as the view reads it: the user and the optional `url` argument. */
  datatype Request = Request(user: Principal, url: Option<string>)

  /** The error texts of the view: "login required", "shops only", the
      validator's message, "not all required arguments given". */
  datatype Message = LoginRequired | ShopsOnly | InvalidUrl | MissingArguments

  /** A JSON reply with its `Status` flag, HTTP status and, on failure, the key
      and message of the error; or Django's server-error page for an exception
      the view does not catch. */
  datatype Response =
    | Json(status: bool, httpStatus: nat, error: Option<(string, Message)>)
    | ServerError

  const Success := Json(true, 200, None)

  datatype Decision = Reject(response: Response) | Proceed(url: string)

  /** The checks made before any fetch: a logged-in user, of type "shop", and a
      non-empty `url` that the validator accepts, in that order. */
  function Gate(request: Request, validUrl: string -> bool): (d: Decision)
    ensures d.Proceed? <==>
              && request.user.Member? && request.user.role == "shop"
              && request.url.Some? && request.url.value != "" && validUrl(request.url.value)
    ensures d.Proceed? ==> d.url == request.url.value
    ensures d.Reject? ==> d.response.Json? && !d.response.status
    ensures d.Reject? ==> (d.response.httpStatus == 403 <==> !(request.user.Member? && request.user.role == "shop"))
    ensures !request.user.Member? ==> d == Reject(Json(false, 403, Some(("Error", LoginRequired))))
    ensures request.user.Member? && request.user.role != "shop" ==>
              d == Reject(Json(false, 403, Some(("Error", ShopsOnly))))
    ensures request.user.Member? && request.user.role == "shop" && (request.url.None? || request.url.value == "") ==>
              d == Reject(Json(false, 200, Some(("Errors", MissingArguments))))
  {
    if !request.user.Member? then Reject(Json(false, 403, Some(("Error", LoginRequired))))
    else if request.user.role != "shop" then Reject(Json(false, 403, Some(("Error", ShopsOnly))))
    else if request.url.None? || request.url.value == "" then Reject(Json(false, 200, Some(("Errors", MissingArguments))))
    else if !validUrl(request.url.value) then Reject(Json(false, 200, Some(("Error", InvalidUrl))))
    else Proceed(request.url.value)
  }

  /** The inner loop: for each (name, value) pair, `Parameter.objects.get_or_create`
      and one `ProductParameter.objects.create` for the fresh offer `offer`. */
  method AttachParameters(store: Store, offer: nat, entries: seq<(string, string)>) returns (ghost rows: seq<nat>)
    requires store.Valid() && offer in store.productInfos
    requires forall r :: r in store.productParameters ==> store.productParameters[r].productInfoId != offer
    modifies store
    ensures store.Valid() && old(store.nextInfoId) <= store.nextInfoId
    ensures store.Snapshot().(parameters := old(store.parameters), productParameters := old(store.productParameters))
            == old(store.Snapshot())
    ensures ParamsExtended(old(store.Snapshot()), store.Snapshot(), offer, entries)
    ensures ParamRowsMatch(store.Snapshot(), offer, entries, rows)
  {
    ghost var d0 := store.Snapshot();
    rows := [];
    var j := 0;
    while j < |entries|
      invariant 0 <= j <= |entries|
      invariant store.Valid() && old(store.nextInfoId) <= store.nextInfoId
      invariant store.Snapshot().(parameters := d0.parameters, productParameters := d0.productParameters) == d0
      invariant ParamsExtended(d0, store.Snapshot(), offer, entries)
      invariant ParamRowsMatch(store.Snapshot(), offer, entries[..j], rows)
    {
      var (name, value) := entries[j];
      ghost var before := store.Snapshot();
      var parameterId := store.GetOrCreateParameter(name);
      var row := store.CreateProductParameter(offer, parameterId, value);
      AttachStep(d0, before, store.Snapshot(), offer, entries, j, rows, parameterId, row);
      rows := rows + [row];
      j := j + 1;
    }
    PrefixAll(entries);
  }

  /** The body of the goods loop for one good: `Product.objects.get_or_create`,
      `ProductInfo.objects.create`, then the good's parameters. `ok` is false when
      the database rejects the product (unknown category) or the offer (a
      negative number); the statements before the failing one stay applied. */
  method IngestGood(store: Store, sid: nat, g: Good) returns (ok: bool, offer: nat, ghost rows: seq<nat>)
    requires store.Valid() && sid in store.shops
    modifies store
    ensures store.Valid() && old(store.nextInfoId) <= store.nextInfoId
    ensures ok <==> GoodAccepted(old(store.categories), g)
    ensures ok ==> old(store.nextInfoId) <= offer && GoodAdded(old(store.Snapshot()), store.Snapshot(), sid, g, offer, rows)
    ensures !ok ==> GoodRejected(old(store.Snapshot()), store.Snapshot(), g)
  {
    ghost var d0 := store.Snapshot();
    rows := [];
    var productOk, productId := store.GetOrCreateProduct(g.name, g.category);
    ProductAddedIntro(d0, store.Snapshot(), g, productId);
    if !productOk {
      return false, 0, [];
    }
    ghost var dProduct := store.Snapshot();
    ok, offer := store.CreateProductInfo(g.id, g.model, g.price, g.priceRrc, g.quantity, productId, sid);
    if !ok {
      return;
    }
    NoRowsOfFresh(dProduct, offer);
    ghost var withOffer := store.Snapshot();
    rows := AttachParameters(store, offer, g.parameters);
    GoodAddedIntro(d0, dProduct, withOffer, store.Snapshot(), sid, g, productId, offer, rows);
  }

  /** The category loop: `Category.objects.get_or_create(id=..., name=...)` for
      each entry, then the link to the shop. `ok` is false when an entry collides
      with a stored category; the entries before it stay merged and linked. */
  method LinkCategories(store: Store, sid: nat, entries: seq<CategoryEntry>) returns (ok: bool)
    requires store.Valid() && sid in store.shops
    modifies store
    ensures store.Valid() && old(store.nextInfoId) <= store.nextInfoId
    ensures store.Snapshot().(categories := old(store.categories), categoryShops := old(store.categoryShops))
            == old(store.Snapshot())
    ensures ok <==> MergeCategories(old(store.categories), entries).Some?
    ensures ok ==> CategoriesMerged(old(store.Snapshot()), store.Snapshot(), entries, sid)
    ensures !ok ==> exists i :: CategoryCollision(old(store.Snapshot()), store.Snapshot(), entries, i, sid)
  {
    ghost var d0 := store.Snapshot();
    CategoriesStart(d0, d0, entries, sid);
    var i := 0;
    while i < |entries|
      invariant store.Valid() && old(store.nextInfoId) <= store.nextInfoId && sid in store.shops
      invariant store.Snapshot().(categories := d0.categories, categoryShops := d0.categoryShops) == d0
      invariant CategoriesProgress(d0, store.Snapshot(), entries, i, sid)
    {
      var entry := entries[i];
      ghost var before := store.Snapshot();
      ok := store.GetOrCreateCategory(entry.id, entry.name);
      if !ok {
        CollisionStops(d0, before, entries, i, sid);
        return;
      }
      store.AddShopToCategory(entry.id, sid);
      CategoryStep(d0, before, store.Snapshot(), entries, i, sid);
      i := i + 1;
    }
    CategoriesDone(d0, store.Snapshot(), entries, sid);
    ok := true;
  }

  /** The goods loop, after the delete of the shop's offers: one offer with its
      parameters per good, until the database rejects one. `d0` is the store
      before the run and `dCat` the store after the category loop. */
  method ReplaceOffers(store: Store, sid: nat, goods: seq<Good>, ghost d0: Db, ghost dCat: Db)
    returns (ok: bool, ghost offers: seq<nat>, ghost rows: seq<seq<nat>>)
    requires store.Valid() && sid in store.shops
    requires GoodsProgress(d0, dCat, store.Snapshot(), sid, goods, 0, [], [])
    requires forall i :: i in d0.productInfos ==> i < store.nextInfoId
    modifies store
    ensures store.Valid()
    ensures ok ==> GoodsProgress(d0, dCat, store.Snapshot(), sid, goods, |goods|, offers, rows)
    ensures !ok ==> GoodsStopped(d0, dCat, store.Snapshot(), sid, goods, offers, rows)
  {
    ghost var base := store.nextInfoId;
    offers, rows := [], [];
    var k := 0;
    while k < |goods|
      invariant store.Valid() && base <= store.nextInfoId && sid in store.shops
      invariant GoodsProgress(d0, dCat, store.Snapshot(), sid, goods, k, offers, rows)
    {
      ghost var before := store.Snapshot();
      var offer;
      ghost var offerRows;
      ok, offer, offerRows := IngestGood(store, sid, goods[k]);
      if !ok {
        GoodStops(d0, dCat, before, store.Snapshot(), sid, goods, k, offers, rows);
        return;
      }
      GoodStep(d0, dCat, before, store.Snapshot(), sid, goods, k, offers, rows, offer, offerRows);
      offers, rows := offers + [offer], rows + [offerRows];
      k := k + 1;
    }
    ok := true;
  }

  /** The reconciliation that follows the checks (views.py, from the shop lookup
      to the last parameter row): the shop, the categories and their links to
      the shop, the delete of the shop's offers, then one offer per good with its
      parameters. A constraint failure ends the run with `IntegrityError`; there
      is no transaction, so what was written before it stays written. */
  method Ingest(store: Store, userId: nat, feed: Document)
    returns (outcome: Outcome, ghost sid: nat, ghost offers: seq<nat>, ghost rows: seq<seq<nat>>)
    requires store.Valid()
    modifies store
    ensures store.Valid()
    ensures Reconciled(old(store.Snapshot()), store.Snapshot(), userId, feed, outcome, sid, offers, rows)
  {
    ghost var d0 := store.Snapshot();
    offers, rows := [], [];
    var shopId := store.GetOrCreateShop(feed.shop, userId);
    sid := shopId;
    ghost var dShop := store.Snapshot();
    assert ShopResolved(d0, dShop, feed.shop, userId, sid);

    var merged := LinkCategories(store, shopId, feed.categories);
    if !merged {
      ghost var i :| CategoryCollision(dShop, store.Snapshot(), feed.categories, i, sid);
      CategoryFailure(d0, dShop, store.Snapshot(), userId, feed, sid, i);
      return IntegrityError, sid, offers, rows;
    }
    ghost var dCat := store.Snapshot();

    store.DeleteShopOffers(shopId);
    GoodsStart(d0, dCat, store.Snapshot(), sid, feed.goods);
    var ok;
    ok, offers, rows := ReplaceOffers(store, shopId, feed.goods, d0, dCat);
    if !ok {
      GoodFailure(d0, dShop, dCat, store.Snapshot(), userId, feed, sid, offers, rows);
      return IntegrityError, sid, offers, rows;
    }
    RunDone(d0, dShop, dCat, store.Snapshot(), userId, feed, sid, offers, rows);
    outcome := Done;
  }

  /** `PartnerUpdate.post`: the checks, then the fetch and decode of the price
      list (the oracle `fetch`, None when the download or the decoding raises,
      the document is no mapping, or it has no `shop` key, all before any
      write), then the reconciliation. An exception the view does not catch
      becomes Django's server-error reply. */
  method Post(store: Store, request: Request, validUrl: string -> bool, fetch: string -> Option<Document>)
    returns (response: Response)
    requires store.Valid()
    modifies store
    ensures store.Valid()
    ensures Gate(request, validUrl).Reject? ==>
              response == Gate(request, validUrl).response && store.Snapshot() == old(store.Snapshot())
    ensures Gate(request, validUrl).Proceed? && fetch(Gate(request, validUrl).url).None? ==>
              response == ServerError && store.Snapshot() == old(store.Snapshot())
    ensures Gate(request, validUrl).Proceed? && fetch(Gate(request, validUrl).url).Some? ==>
              var feed := fetch(Gate(request, validUrl).url).value;
              && (response == Success <==> Accepted(old(store.Snapshot()), feed))
              && (response != Success ==> response == ServerError)
              && (response == Success ==> exists sid, offers, rows ::
                    Reconciled(old(store.Snapshot()), store.Snapshot(), request.user.id, feed, Done, sid, offers, rows))
              && (response != Success ==> exists sid, offers, rows ::
                    Reconciled(old(store.Snapshot()), store.Snapshot(), request.user.id, feed, IntegrityError,
                               sid, offers, rows))
  {
    var decision := Gate(request, validUrl);
    match decision
    case Reject(r) =>
      response := r;
    case Proceed(url) =>
      var fetched := fetch(url);
      match fetched
      case None =>
        response := ServerError;
      case Some(feed) =>
        var outcome, sid, offers, rows := Ingest(store, request.user.id, feed);
        response := if outcome == Done then Success else ServerError;
  }
}
