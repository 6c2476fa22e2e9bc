// What one price-list ingestion does to the catalog, stated over table
// snapshots: the category merge as a function, the post-state as predicates
// relating the tables before and after a run, and the properties that follow
// (one offer per good, one parameter row per parameter entry, and a repeated
// run changing nothing but the offer row ids).

module Reconcile {
  import opened Models
  import opened Feed

  /** How a run ends. `IntegrityError` is a database constraint failure raised
      part-way; the statements before it stay applied. */
  datatype Outcome = Done | IntegrityError

  function EntryIds(entries: seq<CategoryEntry>): set<int> {
    set e | e in entries :: e.id
  }

  /** The categories of the price list do not contradict the stored ones nor
      each other: an id that is already known or listed twice keeps one name. */
  ghost predicate CategoriesAgree(known: map<int, Category>, entries: seq<CategoryEntry>) {
    && (forall e :: e in entries && e.id in known ==> known[e.id].name == e.name)
    && (forall e, f :: e in entries && f in entries && e.id == f.id ==> e.name == f.name)
  }

  /** The category table after `get_or_create(id=..., name=...)` for each entry in
      order, or None when one of them collides with a row of that id under
      another name. */
  function MergeCategories(known: map<int, Category>, entries: seq<CategoryEntry>): (r: Option<map<int, Category>>)
    decreases |entries|
    ensures r.Some? ==> r.value.Keys == known.Keys + EntryIds(entries)
    ensures r.Some? ==> forall id :: id in known ==> r.value[id] == known[id]
    ensures r.Some? ==> forall e :: e in entries ==> r.value[e.id] == Category(e.name)
  {
    if entries == [] then Some(known)
    else
      var e := entries[0];
      if e.id in known && known[e.id].name != e.name then None
      else
        EntryIdsCons(entries);
        MergeCategories(known[e.id := Category(e.name)], entries[1..])
  }

  lemma EntryIdsCons(entries: seq<CategoryEntry>)
    requires entries != []
    ensures EntryIds(entries) == {entries[0].id} + EntryIds(entries[1..])
    ensures forall f :: f in entries <==> f == entries[0] || f in entries[1..]
  {
    assert entries == [entries[0]] + entries[1..];
  }

  /** Agreement of a list is agreement of its head with the table and of its
      tail with the table the head's `get_or_create` leaves. */
  lemma AgreeCons(known: map<int, Category>, entries: seq<CategoryEntry>)
    requires entries != []
    ensures CategoriesAgree(known, entries) <==>
              && (entries[0].id in known ==> known[entries[0].id].name == entries[0].name)
              && CategoriesAgree(known[entries[0].id := Category(entries[0].name)], entries[1..])
  {
    EntryIdsCons(entries);
  }

  /** The merge succeeds exactly when the listed categories agree with the
      stored ones and with each other. */
  lemma {:induction false} MergeSucceedsIff(known: map<int, Category>, entries: seq<CategoryEntry>)
    decreases |entries|
    ensures MergeCategories(known, entries).Some? <==> CategoriesAgree(known, entries)
  {
    if entries != [] {
      var e := entries[0];
      AgreeCons(known, entries);
      MergeSucceedsIff(known[e.id := Category(e.name)], entries[1..]);
    }
  }

  /** Merging `p + q` is merging `p`, then `q` into the table `p` leaves. */
  lemma {:induction false} MergeSplit(known: map<int, Category>, p: seq<CategoryEntry>, q: seq<CategoryEntry>)
    decreases |p|
    ensures MergeCategories(known, p + q) ==
            if MergeCategories(known, p).None? then None else MergeCategories(MergeCategories(known, p).value, q)
  {
    if p == [] {
      assert p + q == q;
    } else {
      var e := p[0];
      assert (p + q)[0] == e;
      assert (p + q)[1..] == p[1..] + q;
      if !(e.id in known && known[e.id].name != e.name) {
        MergeSplit(known[e.id := Category(e.name)], p[1..], q);
      }
    }
  }

  /** The category loop stopped at entry `i`: the entries before it are merged
      into `d1` and linked to the shop, and entry `i` names a stored id under
      another name. */
  ghost predicate CategoryCollision(d0: Db, d1: Db, entries: seq<CategoryEntry>, i: int, sid: nat) {
    && 0 <= i < |entries|
    && MergeCategories(d0.categories, entries[..i]) == Some(d1.categories)
    && entries[i].id in d1.categories && d1.categories[entries[i].id].name != entries[i].name
    && d1.categoryShops == d0.categoryShops + ShopLinks(entries[..i], sid)
  }

  /** A collision part-way means the merge of the whole list fails. */
  lemma CollisionFails(d0: Db, d1: Db, entries: seq<CategoryEntry>, i: int, sid: nat)
    requires CategoryCollision(d0, d1, entries, i, sid)
    ensures MergeCategories(d0.categories, entries).None?
  {
    MergeSplit(d0.categories, entries[..i], entries[i..]);
    assert entries[..i] + entries[i..] == entries;
    assert entries[i..][0] == entries[i];
  }

  /** The database accepts the offer row of a good: its category exists and its
      numbers are non-negative. */
  predicate GoodAccepted(categories: map<int, Category>, g: Good) {
    g.category in categories && g.price >= 0 && g.priceRrc >= 0 && g.quantity >= 0
  }

  /** The whole price list goes through without a constraint failure. */
  ghost predicate Accepted(d: Db, feed: Document) {
    var merged := MergeCategories(d.categories, feed.categories);
    merged.Some? && forall k :: 0 <= k < |feed.goods| ==> GoodAccepted(merged.value, feed.goods[k])
  }

  /** The shop is found by (name, owner) or added, and no other shop changes. */
  ghost predicate ShopResolved(d0: Db, d1: Db, name: string, userId: nat, sid: nat)
    requires ShopKeysUnique(d0.shops)
  {
    && sid in d1.shops && d1.shops[sid].name == name && d1.shops[sid].userId == userId
    && match FindShop(d0.shops, name, userId)
       case Some(existing) => sid == existing && d1.shops == d0.shops
       case None => sid !in d0.shops && d1.shops == d0.shops[sid := Shop(name, "", userId)]
  }

  function ShopLinks(entries: seq<CategoryEntry>, sid: nat): set<(int, nat)> {
    set e | e in entries :: (e.id, sid)
  }

  /** Every listed category exists with its listed name and is linked to the shop. */
  ghost predicate CategoriesMerged(d0: Db, d1: Db, entries: seq<CategoryEntry>, sid: nat) {
    && MergeCategories(d0.categories, entries) == Some(d1.categories)
    && d1.categoryShops == d0.categoryShops + ShopLinks(entries, sid)
  }

  /** Offer row `i` of `d` lists good `g` for shop `sid`. */
  ghost predicate OfferMatches(d: Db, i: nat, g: Good, sid: nat) {
    && i in d.productInfos
    && var info := d.productInfos[i];
    && info.name == "" && info.externalId == g.id && info.model == g.model
    && info.quantity == g.quantity && info.price == g.price && info.priceRrc == g.priceRrc
    && info.shopId == sid
    && info.productId in d.products && d.products[info.productId] == Product(g.name, g.category)
  }

  /** The shop's offers are exactly one fresh row per good, in the goods' order;
      offers of other shops are untouched and none of the shop's old ones survive. */
  ghost predicate OffersReplaced(d0: Db, d1: Db, sid: nat, goods: seq<Good>, offers: seq<nat>) {
    && |offers| == |goods|
    && (forall k :: 0 <= k < |offers| ==> offers[k] !in d0.productInfos && OfferMatches(d1, offers[k], goods[k], sid))
    && (forall k, l :: 0 <= k < l < |offers| ==> offers[k] != offers[l])
    && (forall i :: i in d1.productInfos && i !in offers ==>
          i in d0.productInfos && d0.productInfos[i].shopId != sid && d1.productInfos[i] == d0.productInfos[i])
    && (forall i :: i in d0.productInfos && d0.productInfos[i].shopId != sid ==>
          i in d1.productInfos && d1.productInfos[i] == d0.productInfos[i])
  }

  /** Products are only ever added, and only for a (name, category) some good names. */
  ghost predicate ProductsMerged(d0: Db, d1: Db, goods: seq<Good>) {
    && (forall p :: p in d0.products ==> p in d1.products && d1.products[p] == d0.products[p])
    && (forall p :: p in d1.products && p !in d0.products ==>
          exists k :: 0 <= k < |goods| && d1.products[p] == Product(goods[k].name, goods[k].category))
  }

  ghost predicate NamedByFeed(goods: seq<Good>, name: string) {
    exists k, j :: 0 <= k < |goods| && 0 <= j < |goods[k].parameters| && goods[k].parameters[j].0 == name
  }

  /** Parameters are only ever added, and only for a name some good uses. */
  ghost predicate ParametersMerged(d0: Db, d1: Db, goods: seq<Good>) {
    && (forall p :: p in d0.parameters ==> p in d1.parameters && d1.parameters[p] == d0.parameters[p])
    && (forall p :: p in d1.parameters && p !in d0.parameters ==> NamedByFeed(goods, d1.parameters[p].name))
  }

  /** The parameter rows of offer `o` are exactly `rows`, one per entry, the j-th
      holding the j-th entry's value under the Parameter with the entry's name. */
  ghost predicate ParamRowsMatch(d: Db, o: nat, entries: seq<(string, string)>, rows: seq<nat>) {
    && |rows| == |entries|
    && (forall j :: 0 <= j < |rows| ==>
          && rows[j] in d.productParameters
          && d.productParameters[rows[j]].productInfoId == o
          && d.productParameters[rows[j]].value == entries[j].1
          && d.productParameters[rows[j]].parameterId in d.parameters
          && d.parameters[d.productParameters[rows[j]].parameterId].name == entries[j].0)
    && (forall j, l :: 0 <= j < l < |rows| ==> rows[j] != rows[l])
    && (forall r :: r in d.productParameters && d.productParameters[r].productInfoId == o ==> r in rows)
  }

  /** Each new offer carries its good's parameters; the rows of other shops'
      offers are untouched. */
  ghost predicate ParameterRowsReplaced(d0: Db, d1: Db, sid: nat, goods: seq<Good>, offers: seq<nat>,
                                        rows: seq<seq<nat>>) {
    && |offers| == |goods| == |rows|
    && (forall k :: 0 <= k < |rows| ==> ParamRowsMatch(d1, offers[k], goods[k].parameters, rows[k]))
    && (forall r :: r in d1.productParameters && d1.productParameters[r].productInfoId !in offers ==>
          r in d0.productParameters && d1.productParameters[r] == d0.productParameters[r])
    && (forall r ::
          && r in d0.productParameters && d0.productParameters[r].productInfoId in d0.productInfos
          && d0.productInfos[d0.productParameters[r].productInfoId].shopId != sid
          ==> r in d1.productParameters && d1.productParameters[r] == d0.productParameters[r])
  }

  /** The goods loop stopped at the good after the `|offers|` it went through:
      those goods have their offers and parameter rows, the next one was
      rejected (its product exists exactly when its category does), and the
      offers and rows of other shops are untouched. */
  ghost predicate OffersStopped(d0: Db, d1: Db, sid: nat, goods: seq<Good>, offers: seq<nat>, rows: seq<seq<nat>>) {
    && |offers| < |goods|
    && (forall k :: 0 <= k < |offers| ==> GoodAccepted(d1.categories, goods[k]))
    && !GoodAccepted(d1.categories, goods[|offers|])
    && (goods[|offers|].category in d1.categories <==>
          Product(goods[|offers|].name, goods[|offers|].category) in d1.products.Values)
    && ProductsMerged(d0, d1, goods[..|offers| + 1])
    && OffersReplaced(d0, d1, sid, goods[..|offers|], offers)
    && ParametersMerged(d0, d1, goods[..|offers|])
    && ParameterRowsReplaced(d0, d1, sid, goods[..|offers|], offers, rows)
  }

  /** The effect of one ingestion run for owner `userId` that resolved shop `sid`,
      created the offer rows `offers` and, for the k-th of them, the parameter
      rows `rows[k]`. */
  ghost predicate Reconciled(d0: Db, d1: Db, userId: nat, feed: Document, outcome: Outcome,
                             sid: nat, offers: seq<nat>, rows: seq<seq<nat>>) {
    && Consistent(d0) && Consistent(d1)
    && ShopResolved(d0, d1, feed.shop, userId, sid)
    && (outcome == Done <==> Accepted(d0, feed))
    && (outcome == Done ==>
          && CategoriesMerged(d0, d1, feed.categories, sid)
          && ProductsMerged(d0, d1, feed.goods)
          && OffersReplaced(d0, d1, sid, feed.goods, offers)
          && ParametersMerged(d0, d1, feed.goods)
          && ParameterRowsReplaced(d0, d1, sid, feed.goods, offers, rows))
    // a category collision stops the run before any offer is touched
    && (outcome == IntegrityError && MergeCategories(d0.categories, feed.categories).None? ==>
          && (exists i :: CategoryCollision(d0, d1, feed.categories, i, sid))
          && d1.products == d0.products && d1.productInfos == d0.productInfos
          && d1.parameters == d0.parameters && d1.productParameters == d0.productParameters)
    // a failure among the goods comes after the delete: the shop's old offers are gone
    && (outcome == IntegrityError && MergeCategories(d0.categories, feed.categories).Some? ==>
          && CategoriesMerged(d0, d1, feed.categories, sid)
          && OffersStopped(d0, d1, sid, feed.goods, offers, rows)
          && forall i :: i in d0.productInfos && d0.productInfos[i].shopId == sid ==> i !in d1.productInfos)
  }

  /** Merging the same categories a second time changes nothing. */
  lemma MergeIdempotent(known: map<int, Category>, entries: seq<CategoryEntry>)
    requires MergeCategories(known, entries).Some?
    ensures MergeCategories(MergeCategories(known, entries).value, entries) == MergeCategories(known, entries)
  {
    var m := MergeCategories(known, entries).value;
    forall e | e in entries && e.id in m ensures m[e.id].name == e.name {
    }
    MergeSucceedsIff(known, entries);
    assert CategoriesAgree(m, entries);
    MergeSucceedsIff(m, entries);
    var m2 := MergeCategories(m, entries).value;
    assert EntryIds(entries) <= m.Keys;
    assert m2.Keys == m.Keys;
    assert m2 == m;
  }

  function Elements(s: seq<nat>): set<nat> {
    set x | x in s
  }

  /** A sequence without repetitions has as many distinct elements as entries. */
  lemma {:induction false} DistinctCard(s: seq<nat>)
    requires forall i, j :: 0 <= i < j < |s| ==> s[i] != s[j]
    ensures |Elements(s)| == |s|
  {
    if s != [] {
      var init := s[..|s| - 1];
      assert s == init + [s[|s| - 1]];
      DistinctCard(init);
      assert s[|s| - 1] !in Elements(init);
      assert Elements(s) == Elements(init) + {s[|s| - 1]};
    }
  }

  function RowsOf(d: Db, o: nat): set<nat> {
    set r | r in d.productParameters && d.productParameters[r].productInfoId == o
  }

  /** An offer whose rows match its parameter entries has exactly one
      ProductParameter row per entry. */
  lemma OneRowPerEntry(d: Db, o: nat, entries: seq<(string, string)>, rows: seq<nat>)
    requires ParamRowsMatch(d, o, entries, rows)
    ensures |RowsOf(d, o)| == |entries|
  {
    assert RowsOf(d, o) == Elements(rows);
    DistinctCard(rows);
  }

  /** After a successful run the shop owns exactly one offer per good. */
  lemma OneOfferPerGood(d0: Db, d1: Db, sid: nat, goods: seq<Good>, offers: seq<nat>)
    requires OffersReplaced(d0, d1, sid, goods, offers)
    ensures OffersOf(d1.productInfos, sid) == Elements(offers)
    ensures |OffersOf(d1.productInfos, sid)| == |goods|
  {
    forall i | i in offers ensures i in d1.productInfos && d1.productInfos[i].shopId == sid {
      var k :| 0 <= k < |offers| && offers[k] == i;
    }
    assert OffersOf(d1.productInfos, sid) == Elements(offers);
    DistinctCard(offers);
  }

  /** A second run over a store that already holds every product the goods name
      adds no product. */
  lemma NoNewProducts(d1: Db, d2: Db, sid: nat, goods: seq<Good>, offers: seq<nat>)
    requires ProductKeysUnique(d2.products) && ProductsMerged(d1, d2, goods)
    requires |offers| == |goods| && forall k :: 0 <= k < |goods| ==> OfferMatches(d1, offers[k], goods[k], sid)
    ensures d2.products == d1.products
  {
    forall p | p in d2.products ensures p in d1.products {
    }
    assert d2.products.Keys == d1.products.Keys;
  }

  /** A second run over a store that already holds every parameter name the goods
      use adds no parameter. */
  lemma NoNewParameters(d1: Db, d2: Db, goods: seq<Good>, offers: seq<nat>, rows: seq<seq<nat>>)
    requires ParameterKeysUnique(d2.parameters) && ParametersMerged(d1, d2, goods)
    requires |offers| == |goods| == |rows|
    requires forall k :: 0 <= k < |goods| ==> ParamRowsMatch(d1, offers[k], goods[k].parameters, rows[k])
    ensures d2.parameters == d1.parameters
  {
    forall p | p in d2.parameters ensures p in d1.parameters {
    }
    assert d2.parameters.Keys == d1.parameters.Keys;
  }

  /** A second run for the same owner and shop name resolves the shop of the first. */
  lemma SameShop(d1: Db, d2: Db, name: string, userId: nat, sid1: nat, sid2: nat)
    requires ShopKeysUnique(d1.shops) && sid1 in d1.shops
    requires d1.shops[sid1].name == name && d1.shops[sid1].userId == userId
    requires ShopResolved(d1, d2, name, userId, sid2)
    ensures sid2 == sid1 && d2.shops == d1.shops
  {
    var found := FindShop(d1.shops, name, userId);
    assert found.Some? && found.value == sid1;
  }

  /** Two offer rows that list the same good for the same shop, over one product
      table, are the same record. */
  lemma SameOffers(d1: Db, d2: Db, sid: nat, goods: seq<Good>, offers1: seq<nat>, offers2: seq<nat>)
    requires ProductKeysUnique(d2.products) && d2.products == d1.products
    requires |offers1| == |goods| == |offers2|
    requires forall k :: 0 <= k < |goods| ==> OfferMatches(d1, offers1[k], goods[k], sid)
    requires forall k :: 0 <= k < |goods| ==> OfferMatches(d2, offers2[k], goods[k], sid)
    ensures forall k :: 0 <= k < |goods| ==>
              offers1[k] in d1.productInfos && offers2[k] in d2.productInfos &&
              d2.productInfos[offers2[k]] == d1.productInfos[offers1[k]]
  {
    forall k | 0 <= k < |goods|
      ensures offers1[k] in d1.productInfos && offers2[k] in d2.productInfos
      ensures d2.productInfos[offers2[k]] == d1.productInfos[offers1[k]]
    {
      assert OfferMatches(d1, offers1[k], goods[k], sid);
      assert OfferMatches(d2, offers2[k], goods[k], sid);
      var q1, q2 := d1.productInfos[offers1[k]].productId, d2.productInfos[offers2[k]].productId;
      assert d2.products[q1] == d2.products[q2];
    }
  }

  /** Parameter rows that carry the same entries, over one parameter table, differ
      only in the offer they belong to. */
  lemma SameRows(d1: Db, d2: Db, o1: nat, o2: nat, entries: seq<(string, string)>, rows1: seq<nat>, rows2: seq<nat>)
    requires ParameterKeysUnique(d2.parameters) && d2.parameters == d1.parameters
    requires ParamRowsMatch(d1, o1, entries, rows1) && ParamRowsMatch(d2, o2, entries, rows2)
    ensures |rows1| == |rows2|
    ensures forall j :: 0 <= j < |rows2| ==>
              rows1[j] in d1.productParameters && rows2[j] in d2.productParameters &&
              d2.productParameters[rows2[j]] == d1.productParameters[rows1[j]].(productInfoId := o2)
  {
    forall j | 0 <= j < |rows2|
      ensures rows1[j] in d1.productParameters && rows2[j] in d2.productParameters
      ensures d2.productParameters[rows2[j]] == d1.productParameters[rows1[j]].(productInfoId := o2)
    {
      var q1, q2 := d1.productParameters[rows1[j]].parameterId, d2.productParameters[rows2[j]].parameterId;
      assert d2.parameters[q1] == d2.parameters[q2];
    }
  }

  /** After a successful run, the price list's categories are all in place and
      linked to the shop, so a second run finds nothing to add. */
  lemma FirstRunSettled(d0: Db, d1: Db, userId: nat, feed: Document, sid: nat, offers: seq<nat>, rows: seq<seq<nat>>)
    requires Reconciled(d0, d1, userId, feed, Done, sid, offers, rows)
    ensures Accepted(d1, feed) && MergeCategories(d1.categories, feed.categories) == Some(d1.categories)
    ensures ShopLinks(feed.categories, sid) <= d1.categoryShops
  {
    MergeIdempotent(d0.categories, feed.categories);
  }

  /** A successful second run over a settled store adds no row to any table but
      the offer and parameter-row tables, and recreates those rows alike. */
  lemma SecondRunRepeats(d1: Db, d2: Db, feed: Document, sid: nat,
                         offers1: seq<nat>, rows1: seq<seq<nat>>, offers2: seq<nat>, rows2: seq<seq<nat>>)
    requires KeysUnique(d2) && CategoriesMerged(d1, d2, feed.categories, sid)
    requires ProductsMerged(d1, d2, feed.goods) && OffersReplaced(d1, d2, sid, feed.goods, offers2)
    requires ParametersMerged(d1, d2, feed.goods) && ParameterRowsReplaced(d1, d2, sid, feed.goods, offers2, rows2)
    requires d2.shops == d1.shops && MergeCategories(d1.categories, feed.categories) == Some(d1.categories)
    requires ShopLinks(feed.categories, sid) <= d1.categoryShops
    requires |offers1| == |feed.goods| == |rows1|
    requires forall k :: 0 <= k < |feed.goods| ==> OfferMatches(d1, offers1[k], feed.goods[k], sid)
    requires forall k :: 0 <= k < |feed.goods| ==> ParamRowsMatch(d1, offers1[k], feed.goods[k].parameters, rows1[k])
    ensures d2.categories == d1.categories && d2.categoryShops == d1.categoryShops
    ensures d2.products == d1.products && d2.parameters == d1.parameters
    ensures |offers2| == |offers1|
    ensures forall k :: 0 <= k < |offers2| ==>
              offers1[k] in d1.productInfos && offers2[k] in d2.productInfos &&
              d2.productInfos[offers2[k]] == d1.productInfos[offers1[k]]
    ensures forall k :: 0 <= k < |offers2| ==> |rows2[k]| == |rows1[k]|
    ensures forall k, j :: 0 <= k < |offers2| && 0 <= j < |rows2[k]| ==>
              rows1[k][j] in d1.productParameters && rows2[k][j] in d2.productParameters &&
              d2.productParameters[rows2[k][j]] == d1.productParameters[rows1[k][j]].(productInfoId := offers2[k])
  {
    var goods := feed.goods;
    NoNewProducts(d1, d2, sid, goods, offers1);
    NoNewParameters(d1, d2, goods, offers1, rows1);
    SameOffers(d1, d2, sid, goods, offers1, offers2);
    forall k | 0 <= k < |offers2|
      ensures |rows2[k]| == |rows1[k]|
      ensures forall j :: 0 <= j < |rows2[k]| ==>
                rows1[k][j] in d1.productParameters && rows2[k][j] in d2.productParameters &&
                d2.productParameters[rows2[k][j]] == d1.productParameters[rows1[k][j]].(productInfoId := offers2[k])
    {
      SameRows(d1, d2, offers1[k], offers2[k], goods[k].parameters, rows1[k], rows2[k]);
    }
  }

  /** Ingesting the same price list again for the same owner succeeds, reuses the
      shop, adds no shop, category, link, product or parameter, and recreates the
      same offer and parameter rows, differing only in their own ids. */
  lemma ReingestIsStable(d0: Db, d1: Db, d2: Db, userId: nat, feed: Document,
                         sid1: nat, offers1: seq<nat>, rows1: seq<seq<nat>>,
                         outcome2: Outcome, sid2: nat, offers2: seq<nat>, rows2: seq<seq<nat>>)
    requires Reconciled(d0, d1, userId, feed, Done, sid1, offers1, rows1)
    requires Reconciled(d1, d2, userId, feed, outcome2, sid2, offers2, rows2)
    ensures outcome2 == Done && sid2 == sid1
    ensures d2.shops == d1.shops && d2.categories == d1.categories && d2.categoryShops == d1.categoryShops
    ensures d2.products == d1.products && d2.parameters == d1.parameters
    ensures |offers2| == |offers1| == |feed.goods|
    ensures forall k :: 0 <= k < |offers2| ==>
              offers1[k] in d1.productInfos && offers2[k] in d2.productInfos &&
              d2.productInfos[offers2[k]] == d1.productInfos[offers1[k]]
    ensures forall k :: 0 <= k < |offers2| ==> |rows2[k]| == |rows1[k]|
    ensures forall k, j :: 0 <= k < |offers2| && 0 <= j < |rows2[k]| ==>
              rows1[k][j] in d1.productParameters && rows2[k][j] in d2.productParameters &&
              d2.productParameters[rows2[k][j]] == d1.productParameters[rows1[k][j]].(productInfoId := offers2[k])
  {
    SameShop(d1, d2, feed.shop, userId, sid1, sid2);
    FirstRunSettled(d0, d1, userId, feed, sid1, offers1, rows1);
    SecondRunRepeats(d1, d2, feed, sid1, offers1, rows1, offers2, rows2);
  }
}
