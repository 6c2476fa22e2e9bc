// The single steps of an ingestion run, stated over table snapshots: what one
// good's statements do to the tables, how far a run has got after a prefix of
// the categories or goods, and the lemmas that carry that progress from one
// step to the next and from the last step to the run's overall effect.

module Steps {
  import opened Models
  import opened Feed
  import opened Reconcile

  lemma PrefixStep<T>(s: seq<T>, j: nat)
    requires j < |s|
    ensures s[..j + 1] == s[..j] + [s[j]]
  {
  }

  lemma PrefixAll<T>(s: seq<T>)
    ensures s[..|s|] == s
  {
  }

  /** From `d0` to `d` only parameters named by `entries` and parameter rows of
      offer `offer` were added; nothing was changed or removed. */
  ghost predicate ParamsExtended(d0: Db, d: Db, offer: nat, entries: seq<(string, string)>) {
    && (forall p :: p in d0.parameters ==> p in d.parameters && d.parameters[p] == d0.parameters[p])
    && (forall p :: p in d.parameters && p !in d0.parameters ==>
          exists j :: 0 <= j < |entries| && d.parameters[p].name == entries[j].0)
    && (forall r :: r in d0.productParameters ==>
          r in d.productParameters && d.productParameters[r] == d0.productParameters[r])
    && (forall r :: r in d.productParameters && r !in d0.productParameters ==>
          d.productParameters[r].productInfoId == offer)
  }

  /** At most the product of good `g` was added; no product changed. */
  ghost predicate ProductAdded(d: Db, d': Db, g: Good) {
    && (forall p :: p in d.products ==> p in d'.products && d'.products[p] == d.products[p])
    && (forall p :: p in d'.products && p !in d.products ==> d'.products[p] == Product(g.name, g.category))
  }

  /** The statements for good `g` went through: its product exists, `offer` is a
      new offer row for it and `rows` are the offer's parameter rows. */
  ghost predicate GoodAdded(d: Db, d': Db, sid: nat, g: Good, offer: nat, rows: seq<nat>) {
    && d'.shops == d.shops && d'.categories == d.categories && d'.categoryShops == d.categoryShops
    && ProductAdded(d, d', g)
    && offer !in d.productInfos
    && OfferMatches(d', offer, g, sid)
    && d'.productInfos == d.productInfos[offer := d'.productInfos[offer]]
    && ParamsExtended(d, d', offer, g.parameters)
    && ParamRowsMatch(d', offer, g.parameters, rows)
  }

  /** A statement for good `g` failed: at most its product was added, and it
      was whenever its category exists (only the offer insert failed). */
  ghost predicate GoodRejected(d: Db, d': Db, g: Good) {
    && d' == d.(products := d'.products) && ProductAdded(d, d', g)
    && (g.category in d.categories ==> Product(g.name, g.category) in d'.products.Values)
  }

  /** One more parameter and row for entry `j` keeps `ParamsExtended`. */
  lemma ExtendStep(d0: Db, d: Db, d': Db, offer: nat, entries: seq<(string, string)>, j: nat,
                   pid: nat, row: nat)
    requires ParamsExtended(d0, d, offer, entries) && j < |entries|
    requires d'.parameters == d.parameters || d'.parameters == d.parameters[pid := Parameter(entries[j].0)]
    requires pid !in d.parameters || d'.parameters == d.parameters
    requires row !in d.productParameters
    requires d'.productParameters == d.productParameters[row := ProductParameter(offer, pid, entries[j].1)]
    ensures ParamsExtended(d0, d', offer, entries)
  {
  }

  /** One more parameter row for offer `o` extends its matching by one entry. */
  lemma ParamRowsExtend(d: Db, d': Db, o: nat, entries: seq<(string, string)>, rows: seq<nat>,
                        row: nat, parameterId: nat, entry: (string, string))
    requires ParamRowsMatch(d, o, entries, rows)
    requires forall p :: p in d.parameters ==> p in d'.parameters && d'.parameters[p] == d.parameters[p]
    requires parameterId in d'.parameters && d'.parameters[parameterId].name == entry.0
    requires row !in d.productParameters
    requires d'.productParameters == d.productParameters[row := ProductParameter(o, parameterId, entry.1)]
    ensures ParamRowsMatch(d', o, entries + [entry], rows + [row])
  {
  }

  /** One iteration of the parameter loop. */
  lemma AttachStep(d0: Db, d: Db, d': Db, offer: nat, entries: seq<(string, string)>, j: nat, rows: seq<nat>,
                   pid: nat, row: nat)
    requires j < |entries|
    requires ParamsExtended(d0, d, offer, entries) && ParamRowsMatch(d, offer, entries[..j], rows)
    requires d'.parameters == d.parameters ||
             (pid !in d.parameters && d'.parameters == d.parameters[pid := Parameter(entries[j].0)])
    requires pid in d'.parameters && d'.parameters[pid] == Parameter(entries[j].0)
    requires row !in d.productParameters
    requires d'.productParameters == d.productParameters[row := ProductParameter(offer, pid, entries[j].1)]
    ensures ParamsExtended(d0, d', offer, entries)
    ensures ParamRowsMatch(d', offer, entries[..j + 1], rows + [row])
  {
    ExtendStep(d0, d, d', offer, entries, j, pid, row);
    ParamRowsExtend(d, d', offer, entries[..j], rows, row, pid, entries[j]);
    PrefixStep(entries, j);
  }

  /** Offer facts survive a step that keeps the offer row and only adds products. */
  lemma OfferMatchesGrows(d: Db, d': Db, i: nat, g: Good, sid: nat)
    requires OfferMatches(d, i, g, sid)
    requires i in d'.productInfos && d'.productInfos[i] == d.productInfos[i]
    requires forall p :: p in d.products ==> p in d'.products && d'.products[p] == d.products[p]
    ensures OfferMatches(d', i, g, sid)
  {
  }

  /** Parameter-row facts of offer `o` survive a step that only adds parameters
      and rows of other offers. */
  lemma ParamRowsGrow(d: Db, d': Db, o: nat, entries: seq<(string, string)>, rows: seq<nat>)
    requires ParamRowsMatch(d, o, entries, rows)
    requires forall r :: r in d.productParameters ==>
               r in d'.productParameters && d'.productParameters[r] == d.productParameters[r]
    requires forall r :: r in d'.productParameters && r !in d.productParameters ==>
               d'.productParameters[r].productInfoId != o
    requires forall p :: p in d.parameters ==> p in d'.parameters && d'.parameters[p] == d.parameters[p]
    ensures ParamRowsMatch(d', o, entries, rows)
  {
  }

  /** `get_or_create` of a product either found it or added it under a fresh id. */
  lemma ProductAddedIntro(d: Db, d': Db, g: Good, id: nat)
    requires d'.products == d.products ||
             (id !in d.products && d'.products == d.products[id := Product(g.name, g.category)])
    ensures ProductAdded(d, d', g)
  {
  }

  /** No parameter row references an offer id that is not in use. */
  lemma NoRowsOfFresh(d: Db, offer: nat)
    requires Consistent(d) && offer !in d.productInfos
    ensures forall r :: r in d.productParameters ==> d.productParameters[r].productInfoId != offer
  {
  }

  /** The statements of one good, put together: the product step gave
      `dProduct`, the offer insert `withOffer` and the parameter loop `d'`. */
  lemma GoodAddedIntro(d: Db, dProduct: Db, withOffer: Db, d': Db, sid: nat, g: Good, productId: nat,
                       offer: nat, rows: seq<nat>)
    requires ProductAdded(d, dProduct, g) && dProduct == d.(products := dProduct.products)
    requires productId in dProduct.products && dProduct.products[productId] == Product(g.name, g.category)
    requires g.quantity >= 0 && g.price >= 0 && g.priceRrc >= 0
    requires offer !in dProduct.productInfos
    requires withOffer == dProduct.(productInfos := dProduct.productInfos[offer :=
               ProductInfo("", g.id, g.model, g.quantity, g.price, g.priceRrc, productId, sid)])
    requires d'.(parameters := withOffer.parameters, productParameters := withOffer.productParameters) == withOffer
    requires ParamsExtended(withOffer, d', offer, g.parameters)
    requires ParamRowsMatch(d', offer, g.parameters, rows)
    ensures GoodAdded(d, d', sid, g, offer, rows)
  {
    assert OfferMatches(withOffer, offer, g, sid);
    OfferMatchesGrows(withOffer, d', offer, g, sid);
  }

  // ----- the category loop -----

  /** After the first `i` categories: the current table is the merge of those
      entries into the initial one, and each of them is linked to the shop. */
  ghost predicate CategoriesProgress(d0: Db, d: Db, entries: seq<CategoryEntry>, i: nat, sid: nat) {
    && i <= |entries|
    && MergeCategories(d0.categories, entries[..i]) == Some(d.categories)
    && d.categoryShops == d0.categoryShops + ShopLinks(entries[..i], sid)
  }

  lemma CategoriesStart(d0: Db, d: Db, entries: seq<CategoryEntry>, sid: nat)
    requires d.categories == d0.categories && d.categoryShops == d0.categoryShops
    ensures CategoriesProgress(d0, d, entries, 0, sid)
  {
    assert entries[..0] == [];
    assert ShopLinks(entries[..0], sid) == {};
  }

  lemma LinksStep(entries: seq<CategoryEntry>, i: nat, sid: nat)
    requires i < |entries|
    ensures ShopLinks(entries[..i + 1], sid) == ShopLinks(entries[..i], sid) + {(entries[i].id, sid)}
  {
    PrefixStep(entries, i);
  }

  /** One iteration of the category loop that went through. */
  lemma CategoryStep(d0: Db, d: Db, d': Db, entries: seq<CategoryEntry>, i: nat, sid: nat)
    requires i < |entries| && CategoriesProgress(d0, d, entries, i, sid)
    requires entries[i].id in d.categories ==> d.categories[entries[i].id].name == entries[i].name
    requires d'.categories == d.categories[entries[i].id := Category(entries[i].name)]
    requires d'.categoryShops == d.categoryShops + {(entries[i].id, sid)}
    ensures CategoriesProgress(d0, d', entries, i + 1, sid)
  {
    PrefixStep(entries, i);
    MergeSplit(d0.categories, entries[..i], [entries[i]]);
    assert [entries[i]][1..] == [];
    LinksStep(entries, i, sid);
  }

  /** A collision at entry `i` stops the loop with the entries before it merged. */
  lemma CollisionStops(d0: Db, d: Db, entries: seq<CategoryEntry>, i: nat, sid: nat)
    requires i < |entries| && CategoriesProgress(d0, d, entries, i, sid)
    requires entries[i].id in d.categories && d.categories[entries[i].id].name != entries[i].name
    ensures CategoryCollision(d0, d, entries, i, sid)
    ensures MergeCategories(d0.categories, entries).None?
  {
    CollisionFails(d0, d, entries, i, sid);
  }

  /** The category loop ran to its end. */
  lemma CategoriesDone(d0: Db, d: Db, entries: seq<CategoryEntry>, sid: nat)
    requires CategoriesProgress(d0, d, entries, |entries|, sid)
    ensures CategoriesMerged(d0, d, entries, sid)
  {
    PrefixAll(entries);
  }

  /** A run that stopped at a category collision. */
  lemma CategoryFailure(d0: Db, dShop: Db, d1: Db, userId: nat, feed: Document, sid: nat, i: int)
    requires Consistent(d0) && Consistent(d1) && ShopResolved(d0, dShop, feed.shop, userId, sid)
    requires dShop.(shops := d0.shops) == d0
    requires d1.(categories := dShop.categories, categoryShops := dShop.categoryShops) == dShop
    requires CategoryCollision(dShop, d1, feed.categories, i, sid)
    ensures Reconciled(d0, d1, userId, feed, IntegrityError, sid, [], [])
  {
    assert CategoryCollision(d0, d1, feed.categories, i, sid);
    CollisionFails(d0, d1, feed.categories, i, sid);
  }

  // ----- the goods loop -----

  /** After the first `k` goods: shops and categories are as the category loop
      left them in `dCat`, and the overall effect so far is that of the run on
      `goods[..k]`. */
  ghost predicate GoodsProgress(d0: Db, dCat: Db, d: Db, sid: nat, goods: seq<Good>, k: nat,
                                offers: seq<nat>, rows: seq<seq<nat>>) {
    && k <= |goods|
    && d.shops == dCat.shops && d.categories == dCat.categories && d.categoryShops == dCat.categoryShops
    && (forall j :: 0 <= j < k ==> GoodAccepted(d.categories, goods[j]))
    && ProductsMerged(d0, d, goods[..k])
    && OffersReplaced(d0, d, sid, goods[..k], offers)
    && ParametersMerged(d0, d, goods[..k])
    && ParameterRowsReplaced(d0, d, sid, goods[..k], offers, rows)
  }

  /** The delete of the shop's offers starts the goods loop. */
  lemma GoodsStart(d0: Db, dCat: Db, dDel: Db, sid: nat, goods: seq<Good>)
    requires dCat.products == d0.products && dCat.productInfos == d0.productInfos
    requires dCat.parameters == d0.parameters && dCat.productParameters == d0.productParameters
    requires dDel == CascadeDelete(dCat, OffersOf(dCat.productInfos, sid))
    ensures GoodsProgress(d0, dCat, dDel, sid, goods, 0, [], [])
  {
    assert goods[..0] == [];
    assert OffersReplaced(d0, dDel, sid, [], []);
    assert ParameterRowsReplaced(d0, dDel, sid, [], [], []);
  }

  lemma ProductsStep(d0: Db, d: Db, d': Db, goods: seq<Good>, k: nat)
    requires k < |goods| && ProductsMerged(d0, d, goods[..k]) && ProductAdded(d, d', goods[k])
    ensures ProductsMerged(d0, d', goods[..k + 1])
  {
    var ext := goods[..k + 1];
    forall p | p in d'.products && p !in d0.products
      ensures exists j :: 0 <= j < |ext| && d'.products[p] == Product(ext[j].name, ext[j].category)
    {
      if p in d.products {
        var j :| 0 <= j < k && d.products[p] == Product(goods[..k][j].name, goods[..k][j].category);
        assert ext[j] == goods[..k][j];
      } else {
        assert ext[k] == goods[k];
      }
    }
  }

  lemma OffersStep(d0: Db, d: Db, d': Db, sid: nat, goods: seq<Good>, k: nat, offers: seq<nat>,
                   offer: nat, rows: seq<nat>)
    requires k < |goods| && OffersReplaced(d0, d, sid, goods[..k], offers)
    requires GoodAdded(d, d', sid, goods[k], offer, rows) && offer !in d0.productInfos
    ensures OffersReplaced(d0, d', sid, goods[..k + 1], offers + [offer])
  {
    PrefixStep(goods, k);
    forall j | 0 <= j < k ensures OfferMatches(d', offers[j], goods[j], sid) {
      assert goods[..k][j] == goods[j];
      OfferMatchesGrows(d, d', offers[j], goods[j], sid);
    }
  }

  lemma ParamsStep(d0: Db, d: Db, d': Db, goods: seq<Good>, k: nat, offer: nat)
    requires k < |goods| && ParametersMerged(d0, d, goods[..k])
    requires ParamsExtended(d, d', offer, goods[k].parameters)
    ensures ParametersMerged(d0, d', goods[..k + 1])
  {
    var ext := goods[..k + 1];
    forall p | p in d'.parameters && p !in d0.parameters ensures NamedByFeed(ext, d'.parameters[p].name) {
      var name := d'.parameters[p].name;
      if p in d.parameters {
        var k', j :| 0 <= k' < k && 0 <= j < |goods[..k][k'].parameters| && goods[..k][k'].parameters[j].0 == name;
        assert ext[k'] == goods[..k][k'];
      } else {
        var j :| 0 <= j < |goods[k].parameters| && goods[k].parameters[j].0 == name;
        assert ext[k] == goods[k];
      }
    }
  }

  /** The rows of the offers made so far survive the next good's statements. */
  lemma EarlierRowsKept(d: Db, d': Db, goods: seq<Good>, offers: seq<nat>, rows: seq<seq<nat>>,
                        offer: nat, entries: seq<(string, string)>)
    requires |offers| == |goods| == |rows|
    requires forall j :: 0 <= j < |rows| ==> ParamRowsMatch(d, offers[j], goods[j].parameters, rows[j])
    requires forall j :: 0 <= j < |offers| ==> offers[j] in d.productInfos
    requires offer !in d.productInfos && ParamsExtended(d, d', offer, entries)
    ensures forall j :: 0 <= j < |rows| ==> ParamRowsMatch(d', offers[j], goods[j].parameters, rows[j])
  {
    forall j | 0 <= j < |rows| ensures ParamRowsMatch(d', offers[j], goods[j].parameters, rows[j]) {
      ParamRowsGrow(d, d', offers[j], goods[j].parameters, rows[j]);
    }
  }

  lemma RowsStep(d0: Db, d: Db, d': Db, sid: nat, goods: seq<Good>, k: nat, offers: seq<nat>,
                 rows: seq<seq<nat>>, offer: nat, offerRows: seq<nat>)
    requires k < |goods| && |offers| == k && forall j :: 0 <= j < k ==> offers[j] in d.productInfos
    requires ParameterRowsReplaced(d0, d, sid, goods[..k], offers, rows)
    requires offer !in d.productInfos && ParamsExtended(d, d', offer, goods[k].parameters)
    requires ParamRowsMatch(d', offer, goods[k].parameters, offerRows)
    ensures ParameterRowsReplaced(d0, d', sid, goods[..k + 1], offers + [offer], rows + [offerRows])
  {
    PrefixStep(goods, k);
    EarlierRowsKept(d, d', goods[..k], offers, rows, offer, goods[k].parameters);
    var offers', rows' := offers + [offer], rows + [offerRows];
    forall r | r in d'.productParameters && d'.productParameters[r].productInfoId !in offers'
      ensures r in d0.productParameters && d'.productParameters[r] == d0.productParameters[r]
    {
      assert r in d.productParameters;
    }
  }

  /** One iteration of the goods loop that went through. */
  lemma GoodStep(d0: Db, dCat: Db, d: Db, d': Db, sid: nat, goods: seq<Good>, k: nat, offers: seq<nat>,
                 rows: seq<seq<nat>>, offer: nat, offerRows: seq<nat>)
    requires k < |goods| && GoodsProgress(d0, dCat, d, sid, goods, k, offers, rows)
    requires GoodAccepted(d.categories, goods[k])
    requires GoodAdded(d, d', sid, goods[k], offer, offerRows) && offer !in d0.productInfos
    ensures GoodsProgress(d0, dCat, d', sid, goods, k + 1, offers + [offer], rows + [offerRows])
  {
    ProductsStep(d0, d, d', goods, k);
    OffersStep(d0, d, d', sid, goods, k, offers, offer, offerRows);
    ParamsStep(d0, d, d', goods, k, offer);
    RowsStep(d0, d, d', sid, goods, k, offers, rows, offer, offerRows);
  }

  /** The goods loop stopped at a good the database rejected: shops and
      categories are as the category loop left them in `dCat`, the goods before
      it went through, and none of the shop's old offers is left. */
  ghost predicate GoodsStopped(d0: Db, dCat: Db, d: Db, sid: nat, goods: seq<Good>,
                               offers: seq<nat>, rows: seq<seq<nat>>) {
    && d.shops == dCat.shops && d.categories == dCat.categories && d.categoryShops == dCat.categoryShops
    && OffersStopped(d0, d, sid, goods, offers, rows)
    && (forall i :: i in d0.productInfos && d0.productInfos[i].shopId == sid ==> i !in d.productInfos)
  }

  /** Offer facts survive a step that only adds products. */
  lemma OffersKept(d0: Db, d: Db, d': Db, sid: nat, goods: seq<Good>, offers: seq<nat>)
    requires OffersReplaced(d0, d, sid, goods, offers)
    requires d' == d.(products := d'.products)
    requires forall p :: p in d.products ==> p in d'.products && d'.products[p] == d.products[p]
    ensures OffersReplaced(d0, d', sid, goods, offers)
  {
    forall k | 0 <= k < |offers| ensures OfferMatches(d', offers[k], goods[k], sid) {
      OfferMatchesGrows(d, d', offers[k], goods[k], sid);
    }
  }

  /** Parameter-row facts survive a step that only adds products. */
  lemma RowsKept(d0: Db, d: Db, d': Db, sid: nat, goods: seq<Good>, offers: seq<nat>, rows: seq<seq<nat>>)
    requires ParameterRowsReplaced(d0, d, sid, goods, offers, rows) && ParametersMerged(d0, d, goods)
    requires d' == d.(products := d'.products)
    ensures ParameterRowsReplaced(d0, d', sid, goods, offers, rows) && ParametersMerged(d0, d', goods)
  {
  }

  /** None of the shop's old offers is among the offers the loop has made. */
  lemma OldOffersGone(d0: Db, d: Db, sid: nat, goods: seq<Good>, offers: seq<nat>)
    requires OffersReplaced(d0, d, sid, goods, offers)
    ensures forall i :: i in d0.productInfos && d0.productInfos[i].shopId == sid ==> i !in d.productInfos
  {
    forall i | i in d0.productInfos && d0.productInfos[i].shopId == sid ensures i !in d.productInfos {
    }
  }

  /** The goods loop stops at good `k`. */
  lemma GoodStops(d0: Db, dCat: Db, d: Db, d': Db, sid: nat, goods: seq<Good>, k: nat,
                  offers: seq<nat>, rows: seq<seq<nat>>)
    requires k < |goods| && GoodsProgress(d0, dCat, d, sid, goods, k, offers, rows)
    requires !GoodAccepted(d.categories, goods[k]) && GoodRejected(d, d', goods[k]) && Consistent(d')
    ensures GoodsStopped(d0, dCat, d', sid, goods, offers, rows)
  {
    ProductsStep(d0, d, d', goods, k);
    OffersKept(d0, d, d', sid, goods[..k], offers);
    RowsKept(d0, d, d', sid, goods[..k], offers, rows);
    OldOffersGone(d0, d', sid, goods[..k], offers);
  }

  /** A run that stopped at a rejected good. */
  lemma GoodFailure(d0: Db, dShop: Db, dCat: Db, d1: Db, userId: nat, feed: Document, sid: nat,
                    offers: seq<nat>, rows: seq<seq<nat>>)
    requires Consistent(d0) && Consistent(d1) && ShopResolved(d0, dShop, feed.shop, userId, sid)
    requires dCat.shops == dShop.shops && CategoriesMerged(d0, dCat, feed.categories, sid)
    requires GoodsStopped(d0, dCat, d1, sid, feed.goods, offers, rows)
    ensures Reconciled(d0, d1, userId, feed, IntegrityError, sid, offers, rows)
  {
    assert !Accepted(d0, feed);
  }

  /** A run that went through every good. */
  lemma RunDone(d0: Db, dShop: Db, dCat: Db, d1: Db, userId: nat, feed: Document, sid: nat,
                offers: seq<nat>, rows: seq<seq<nat>>)
    requires Consistent(d0) && Consistent(d1) && ShopResolved(d0, dShop, feed.shop, userId, sid)
    requires dCat.shops == dShop.shops && CategoriesMerged(d0, dCat, feed.categories, sid)
    requires GoodsProgress(d0, dCat, d1, sid, feed.goods, |feed.goods|, offers, rows)
    ensures Reconciled(d0, d1, userId, feed, Done, sid, offers, rows)
  {
    PrefixAll(feed.goods);
  }
}
