/** `MLServices`: what the service does with the outputs of the
    collaborative-filtering recommender and of the embedding similarities.
    Those outputs are inputs here: a recommender function, a similarity row
    for a search query and a similarity matrix between catalog products. */
module Ranking {
  import opened Common
  import opened Lists
  import opened Catalog
  import opened InteractionLog
  import opened Clock

  /** The product fields every result carries (`ProductRecommendation`,
      `SearchResult`, `TrendingProduct`, `SimilarProduct`). */
  datatype ProductCard = ProductCard(productId: Value, name: Value, description: Value, price: real)

  function CardOf(productId: Value, p: Product): ProductCard {
    ProductCard(productId, Get(p, "name", Text("Unknown Product")), Get(p, "description", Text("")), ExtractPrice(p))
  }

  /** A card with its `score` or `similarity_score`. */
  datatype Scored = Scored(card: ProductCard, score: real)

  /** `raise Exception(prefix + str(e))` around a computation that may raise. */
  function Prefixed<T>(prefix: string, r: Result<T>): (p: Result<T>)
    ensures r.Success? <==> p.Success?
    ensures r.Success? ==> p.value == r.value
    ensures r.Failure? ==> p.error == prefix + r.error
  {
    match r
    case Success(v) => Success(v)
    case Failure(e) => Failure(prefix + e)
  }

  // ---------------------------------------------------------------------
  // Recommendations

  function UserIs(userId: string): ((int, string)) -> bool {
    (e: (int, string)) => e.1 == userId
  }

  /** The recommender's index for a user: the key of the first `user_map`
      entry whose value is the user id, and 0 for a user it does not know. */
  function UserIndex(userMap: seq<(int, string)>, userId: string): (index: int)
    ensures (forall k :: 0 <= k < |userMap| ==> userMap[k].1 != userId) ==> index == 0
    ensures (exists k :: 0 <= k < |userMap| && userMap[k].1 == userId) ==>
              exists k :: 0 <= k < |userMap| && userMap[k].1 == userId && index == userMap[k].0 &&
                forall j :: 0 <= j < k ==> userMap[j].1 != userId
  {
    match FirstWhere(userMap, UserIs(userId))
    case None => 0
    case Some(k) => userMap[k].0
  }

  /** The search with early exit over `user_map.items()`. */
  method FindUserIndex(userMap: seq<(int, string)>, userId: string) returns (index: int)
    ensures index == UserIndex(userMap, userId)
  {
    var found: Option<int> := None;
    var i := 0;
    while i < |userMap|
      invariant 0 <= i <= |userMap|
      invariant forall j :: 0 <= j < i ==> userMap[j].1 != userId
    {
      if userMap[i].1 == userId {
        found := Some(userMap[i].0);
        break;
      }
      i := i + 1;
    }
    index := if found.Some? then found.value else 0;
  }

  /** What `cf_model.recommend` returns: item indices and their scores. */
  datatype CfOutput = CfOutput(itemIndices: seq<int>, scores: seq<real>)

  /** `abs(score) < 1e6`. */
  predicate SaneScore(score: real) {
    -1000000.0 < score < 1000000.0
  }

  function Zip(items: seq<int>, scores: seq<real>): (z: seq<(int, real)>)
    ensures |z| == if |items| < |scores| then |items| else |scores|
    ensures forall i :: 0 <= i < |z| ==> z[i] == (items[i], scores[i])
  {
    if items == [] || scores == [] then [] else [(items[0], scores[0])] + Zip(items[1..], scores[1..])
  }

  /** A sane entry whose item index `item_map` lacks: `item_map[item_idx]`
      raises KeyError. */
  predicate Unmapped(itemMap: map<int, string>, e: (int, real)) {
    SaneScore(e.1) && e.0 !in itemMap
  }

  /** A sane entry whose product is in the catalog: it becomes a
      recommendation. */
  predicate Resolves(catalog: seq<Product>, itemMap: map<int, string>, e: (int, real)) {
    SaneScore(e.1) && e.0 in itemMap && ProductInfo(catalog, itemMap[e.0]).Some?
  }

  function ResolvesIn(catalog: seq<Product>, itemMap: map<int, string>): ((int, real)) -> bool {
    (e: (int, real)) => Resolves(catalog, itemMap, e)
  }

  /** The loop over `zip(item_indices, scores)`: insane scores and products
      the catalog lacks are skipped; the first sane unmapped item raises,
      with the item index as the message. */
  function Collect(catalog: seq<Product>, itemMap: map<int, string>, pairs: seq<(int, real)>): (r: Result<seq<Scored>>)
    ensures r.Success? ==> |r.value| <= |pairs|
    ensures r.Success? ==> forall i :: 0 <= i < |r.value| ==> SaneScore(r.value[i].score)
  {
    if pairs == [] then Success([])
    else
      var rest := Collect(catalog, itemMap, pairs[1..]);
      var (item, score) := pairs[0];
      if !SaneScore(score) then rest
      else if item !in itemMap then Failure(IntToString(item))
      else match ProductInfo(catalog, itemMap[item])
        case None => rest
        case Some(p) =>
          match rest
          case Failure(e) => Failure(e)
          case Success(recs) => Success([Scored(CardOf(Text(itemMap[item]), p), score)] + recs)
  }

  /** The recommendation an entry that resolves becomes. */
  function Recommend(catalog: seq<Product>, itemMap: map<int, string>, e: (int, real)): Scored
    requires Resolves(catalog, itemMap, e)
  {
    var p := ProductInfo(catalog, itemMap[e.0]).value;
    Scored(CardOf(Text(itemMap[e.0]), p), e.1)
  }

  function RecommendAll(catalog: seq<Product>, itemMap: map<int, string>, es: seq<(int, real)>): (r: seq<Scored>)
    requires forall e :: e in es ==> Resolves(catalog, itemMap, e)
    ensures |r| == |es| && forall i :: 0 <= i < |es| ==> r[i] == Recommend(catalog, itemMap, es[i])
  {
    if es == [] then [] else [Recommend(catalog, itemMap, es[0])] + RecommendAll(catalog, itemMap, es[1..])
  }

  /** The loop fails exactly when some sane entry's item is unmapped, and
      then with the first such item's index as the message. */
  lemma {:induction false} CollectFails(catalog: seq<Product>, itemMap: map<int, string>, pairs: seq<(int, real)>)
    ensures Collect(catalog, itemMap, pairs).Failure? <==> exists i :: 0 <= i < |pairs| && Unmapped(itemMap, pairs[i])
    ensures Collect(catalog, itemMap, pairs).Failure? ==>
              exists i :: 0 <= i < |pairs| && Unmapped(itemMap, pairs[i]) &&
                Collect(catalog, itemMap, pairs).error == IntToString(pairs[i].0) &&
                forall j :: 0 <= j < i ==> !Unmapped(itemMap, pairs[j])
  {
    if pairs != [] {
      CollectFails(catalog, itemMap, pairs[1..]);
      var r := Collect(catalog, itemMap, pairs);
      if Unmapped(itemMap, pairs[0]) {
        assert r.error == IntToString(pairs[0].0);
      } else {
        assert r.Failure? <==> Collect(catalog, itemMap, pairs[1..]).Failure?;
        if r.Failure? {
          var i :| 0 <= i < |pairs[1..]| && Unmapped(itemMap, pairs[1..][i]) &&
                   r.error == IntToString(pairs[1..][i].0) &&
                   forall j :: 0 <= j < i ==> !Unmapped(itemMap, pairs[1..][j]);
          assert pairs[i + 1] == pairs[1..][i];
          forall j | 0 <= j < i + 1 ensures !Unmapped(itemMap, pairs[j]) {
            if j > 0 { assert pairs[j] == pairs[1..][j - 1]; }
          }
        }
        if exists i :: 0 <= i < |pairs| && Unmapped(itemMap, pairs[i]) {
          var i :| 0 <= i < |pairs| && Unmapped(itemMap, pairs[i]);
          assert pairs[1..][i - 1] == pairs[i];
        }
      }
    }
  }

  /** When no item is unmapped, the loop is a filter followed by a map: it
      keeps, in the recommender's order, exactly the entries that resolve. */
  lemma {:induction false} CollectIsFilterThenMap(catalog: seq<Product>, itemMap: map<int, string>, pairs: seq<(int, real)>)
    requires forall i :: 0 <= i < |pairs| ==> !Unmapped(itemMap, pairs[i])
    ensures Collect(catalog, itemMap, pairs) ==
            Success(RecommendAll(catalog, itemMap, Filter(pairs, ResolvesIn(catalog, itemMap))))
  {
    if pairs != [] {
      assert forall i :: 0 <= i < |pairs[1..]| ==> pairs[1..][i] == pairs[i + 1];
      CollectIsFilterThenMap(catalog, itemMap, pairs[1..]);
      var kept := Filter(pairs[1..], ResolvesIn(catalog, itemMap));
      if Resolves(catalog, itemMap, pairs[0]) {
        assert Filter(pairs, ResolvesIn(catalog, itemMap)) == [pairs[0]] + kept;
        assert RecommendAll(catalog, itemMap, [pairs[0]] + kept)[1..] == RecommendAll(catalog, itemMap, kept);
      } else {
        assert Filter(pairs, ResolvesIn(catalog, itemMap)) == kept;
      }
    }
  }

  function PairScore(e: (int, real)): Key {
    Val(e.1)
  }

  /** Recommendations keep the recommender's order: scores that come in
      non-increasing stay non-increasing. */
  lemma RecommendationsKeepOrder(catalog: seq<Product>, itemMap: map<int, string>, pairs: seq<(int, real)>)
    requires SortedDesc(pairs, PairScore)
    requires Collect(catalog, itemMap, pairs).Success?
    ensures var recs := Collect(catalog, itemMap, pairs).value;
            forall i, j :: 0 <= i < j < |recs| ==> recs[j].score <= recs[i].score
  {
    CollectFails(catalog, itemMap, pairs);
    CollectIsFilterThenMap(catalog, itemMap, pairs);
    var kept := Filter(pairs, ResolvesIn(catalog, itemMap));
    FilterSorted(pairs, ResolvesIn(catalog, itemMap), PairScore);
    var recs := Collect(catalog, itemMap, pairs).value;
    forall i, j | 0 <= i < j < |recs| ensures recs[j].score <= recs[i].score {
      assert recs[i].score == kept[i].1 && recs[j].score == kept[j].1;
      assert KeyLe(PairScore(kept[j]), PairScore(kept[i]));
    }
  }

  const RecommendationError: string := "Error getting recommendations: "

  // ---------------------------------------------------------------------
  // Trending products

  /** `interaction_df['timestamp'] > now - timedelta(days=days)`: strictly
      inside the window; NaT compares false. */
  function IsRecent(now: int, days: int): LogRow -> bool {
    (row: LogRow) => row.timestamp.Moment? && row.timestamp.micros > now - days * MicrosPerDay
  }

  function RecentRows(log: seq<LogRow>, now: int, days: int): seq<LogRow> {
    Filter(log, IsRecent(now, days))
  }

  /** The rows whose product ids are counted: the recent ones, or the whole
      log when the window holds no row at all. */
  function CountedRows(log: seq<LogRow>, now: int, days: int): seq<LogRow> {
    var recent := RecentRows(log, now, days);
    if recent == [] then log else recent
  }

  /** `rows['productId']` without its NaN cells, which `value_counts` drops. */
  function ProductIds(rows: seq<LogRow>): (ids: seq<string>)
    ensures forall i :: 0 <= i < |ids| ==> exists k :: 0 <= k < |rows| && rows[k].productId == Some(ids[i])
    ensures forall k :: 0 <= k < |rows| && rows[k].productId.Some? ==> rows[k].productId.value in ids
  {
    if rows == [] then []
    else
      var rest := ProductIds(rows[1..]);
      assert forall k :: 0 < k < |rows| ==> rows[k] == rows[1..][k - 1];
      match rows[0].productId
      case None => rest
      case Some(id) => [id] + rest
  }

  function ProductIs(id: string): LogRow -> bool {
    (row: LogRow) => row.productId == Some(id)
  }

  /** The number of rows of `rows` about product `id`. */
  function Occurrences(rows: seq<LogRow>, id: string): nat {
    |Filter(rows, ProductIs(id))|
  }

  lemma {:induction false} ProductIdsCount(rows: seq<LogRow>, id: string)
    ensures multiset(ProductIds(rows))[id] == Occurrences(rows, id)
  {
    if rows != [] {
      ProductIdsCount(rows[1..], id);
    }
  }

  /** One entry of `value_counts()`. */
  datatype Count = Count(productId: string, count: nat)

  function CountKey(c: Count): Key {
    Val(c.count as real)
  }

  /** Each distinct id with its number of occurrences, in order of first
      appearance. */
  function Tally(ids: seq<string>): (t: seq<Count>)
    ensures |t| == |Distinct(ids)|
    ensures forall i :: 0 <= i < |t| ==> t[i] == Count(Distinct(ids)[i], multiset(ids)[Distinct(ids)[i]])
  {
    var d := Distinct(ids);
    seq(|d|, i requires 0 <= i < |d| => Count(d[i], multiset(ids)[d[i]]))
  }

  /** `value_counts()`: the tally in non-increasing order of count. */
  function ValueCounts(ids: seq<string>): seq<Count> {
    SortDesc(Tally(ids), CountKey)
  }

  /** `c` is the tally of one id that occurs in `ids`. */
  predicate Counted(ids: seq<string>, c: Count) {
    c.productId in ids && c.count == multiset(ids)[c.productId]
  }

  ghost predicate UniqueIds(cs: seq<Count>) {
    forall i, j :: 0 <= i < j < |cs| ==> cs[i].productId != cs[j].productId
  }

  /** Each entry of `value_counts()` is one id's true, positive count; no id
      comes twice; the counts are non-increasing. */
  lemma ValueCountsEntries(ids: seq<string>)
    ensures |ValueCounts(ids)| == |Distinct(ids)|
    ensures SortedDesc(ValueCounts(ids), CountKey)
    ensures UniqueIds(ValueCounts(ids))
    ensures forall i :: 0 <= i < |ValueCounts(ids)| ==> Counted(ids, ValueCounts(ids)[i]) && ValueCounts(ids)[i].count > 0
  {
    var t, v, d := Tally(ids), ValueCounts(ids), Distinct(ids);
    assert NoDups(t) by {
      forall i, j | 0 <= i < j < |t| ensures t[i] != t[j] {
        assert t[i].productId == d[i] && t[j].productId == d[j];
      }
    }
    PermutationNoDups(t, v);
    forall i | 0 <= i < |v| ensures Counted(ids, v[i]) && v[i].count > 0 {
      assert v[i] in multiset(t);
      var k :| 0 <= k < |t| && t[k] == v[i];
      assert d[k] in ids;
    }
    forall i, j | 0 <= i < j < |v| ensures v[i].productId != v[j].productId {
      assert Counted(ids, v[i]) && Counted(ids, v[j]);
    }
  }

  /** Every id has an entry in `value_counts()`. */
  lemma ValueCountsCovers(ids: seq<string>, x: string) returns (i: nat)
    requires x in ids
    ensures i < |ValueCounts(ids)| && ValueCounts(ids)[i].productId == x
  {
    var t, v, d := Tally(ids), ValueCounts(ids), Distinct(ids);
    var k :| 0 <= k < |ids| && ids[k] == x;
    var m :| 0 <= m < |d| && d[m] == x;
    assert t[m] in multiset(v);
    i :| 0 <= i < |v| && v[i] == t[m];
  }

  /** `value_counts()` lists every id once, with its true count, in
      non-increasing order of count. */
  lemma ValueCountsContract(ids: seq<string>)
    ensures |ValueCounts(ids)| == |Distinct(ids)|
    ensures SortedDesc(ValueCounts(ids), CountKey)
    ensures UniqueIds(ValueCounts(ids))
    ensures forall i :: 0 <= i < |ValueCounts(ids)| ==> Counted(ids, ValueCounts(ids)[i]) && ValueCounts(ids)[i].count > 0
    ensures forall x :: x in ids ==> exists i :: 0 <= i < |ValueCounts(ids)| && ValueCounts(ids)[i].productId == x
  {
    ValueCountsEntries(ids);
    forall x | x in ids ensures exists i :: 0 <= i < |ValueCounts(ids)| && ValueCounts(ids)[i].productId == x {
      var i := ValueCountsCovers(ids, x);
    }
  }

  /** The first `limit` entries of `value_counts()`. */
  function TopCountsOf(ids: seq<string>, limit: int): seq<Count> {
    Take(ValueCounts(ids), limit)
  }

  lemma TopCountsShape(ids: seq<string>, limit: int)
    ensures |TopCountsOf(ids, limit)| == TakeLength(|Distinct(ids)|, limit)
    ensures SortedDesc(TopCountsOf(ids, limit), CountKey)
    ensures UniqueIds(TopCountsOf(ids, limit))
  {
    var v := ValueCounts(ids);
    var t := TopCountsOf(ids, limit);
    ValueCountsEntries(ids);
    TakeElements(v, limit);
    forall i, j | 0 <= i < j < |t| ensures KeyLe(CountKey(t[j]), CountKey(t[i])) && t[i].productId != t[j].productId {
      assert t[i] == v[i] && t[j] == v[j];
    }
  }

  lemma TopCountsCounted(ids: seq<string>, limit: int)
    ensures forall i :: 0 <= i < |TopCountsOf(ids, limit)| ==>
              Counted(ids, TopCountsOf(ids, limit)[i]) && TopCountsOf(ids, limit)[i].count > 0
  {
    var v := ValueCounts(ids);
    ValueCountsEntries(ids);
    TakeElements(v, limit);
  }

  /** As many entries as `head(limit)` gives, each id once with its true
      count, in non-increasing order. */
  lemma TopCounts(ids: seq<string>, limit: int)
    ensures |TopCountsOf(ids, limit)| == TakeLength(|Distinct(ids)|, limit)
    ensures SortedDesc(TopCountsOf(ids, limit), CountKey)
    ensures UniqueIds(TopCountsOf(ids, limit))
    ensures forall i :: 0 <= i < |TopCountsOf(ids, limit)| ==>
              Counted(ids, TopCountsOf(ids, limit)[i]) && TopCountsOf(ids, limit)[i].count > 0
  {
    TopCountsShape(ids, limit);
    TopCountsCounted(ids, limit);
  }

  /** An id that `head(limit)` leaves out occurs no more often than any kept
      one. */
  lemma TopCountsAreTop(ids: seq<string>, limit: int, x: string, i: nat)
    requires x in ids && i < |TopCountsOf(ids, limit)|
    requires forall m :: 0 <= m < |TopCountsOf(ids, limit)| ==> TopCountsOf(ids, limit)[m].productId != x
    ensures multiset(ids)[x] <= TopCountsOf(ids, limit)[i].count
  {
    var v := ValueCounts(ids);
    var t := TopCountsOf(ids, limit);
    ValueCountsEntries(ids);
    var j := ValueCountsCovers(ids, x);
    assert Counted(ids, v[j]);
    TakeElements(v, limit);
    assert j >= |t|;
    TakeIsTop(v, limit, CountKey, i, j);
  }

  /** `value_counts().head(limit)` over the counted rows. */
  function TrendingCounts(log: seq<LogRow>, now: int, days: int, limit: int): seq<Count> {
    Take(ValueCounts(ProductIds(CountedRows(log, now, days))), limit)
  }

  /** The counts the trending rule keeps: each product of the counted rows at
      most once, with its true, positive number of rows, in non-increasing
      order, as many as `head(limit)` gives. */
  lemma TrendingCountsExact(log: seq<LogRow>, now: int, days: int, limit: int)
    ensures |TrendingCounts(log, now, days, limit)| == TakeLength(|Distinct(ProductIds(CountedRows(log, now, days)))|, limit)
    ensures SortedDesc(TrendingCounts(log, now, days, limit), CountKey)
    ensures UniqueIds(TrendingCounts(log, now, days, limit))
    ensures forall i :: 0 <= i < |TrendingCounts(log, now, days, limit)| ==>
              TrendingCounts(log, now, days, limit)[i].count ==
                Occurrences(CountedRows(log, now, days), TrendingCounts(log, now, days, limit)[i].productId) > 0
  {
    var rows := CountedRows(log, now, days);
    var ids := ProductIds(rows);
    var t := TopCountsOf(ids, limit);
    TopCounts(ids, limit);
    forall i | 0 <= i < |t|
      ensures t[i].count == Occurrences(rows, t[i].productId)
    {
      ProductIdsCount(rows, t[i].productId);
    }
  }

  /** A product of the counted rows that the kept counts leave out has no
      more rows than any product kept. */
  lemma TrendingCountsAreTop(log: seq<LogRow>, now: int, days: int, limit: int, x: string, i: nat)
    requires x in ProductIds(CountedRows(log, now, days))
    requires i < |TrendingCounts(log, now, days, limit)|
    requires forall m :: 0 <= m < |TrendingCounts(log, now, days, limit)| ==> TrendingCounts(log, now, days, limit)[m].productId != x
    ensures Occurrences(CountedRows(log, now, days), x) <= TrendingCounts(log, now, days, limit)[i].count
  {
    var rows := CountedRows(log, now, days);
    TopCountsAreTop(ProductIds(rows), limit, x, i);
    ProductIdsCount(rows, x);
  }

  /** With no row in the window, every row is counted, NaT rows included;
      otherwise exactly the rows strictly inside the window are, each as
      often as the log holds it. */
  lemma CountedRowsRule(log: seq<LogRow>, now: int, days: int)
    ensures RecentRows(log, now, days) == [] ==> CountedRows(log, now, days) == log
    ensures RecentRows(log, now, days) != [] ==>
              forall i :: 0 <= i < |CountedRows(log, now, days)| ==>
                var row := CountedRows(log, now, days)[i];
                row in log && row.timestamp.Moment? && row.timestamp.micros > now - days * MicrosPerDay
    ensures RecentRows(log, now, days) != [] ==>
              forall row: LogRow :: multiset(CountedRows(log, now, days))[row] ==
                if row.timestamp.Moment? && row.timestamp.micros > now - days * MicrosPerDay then multiset(log)[row] else 0
  {
    var c := CountedRows(log, now, days);
    forall i | 0 <= i < |c| ensures c[i] in c { }
    if RecentRows(log, now, days) != [] {
      forall row: LogRow
        ensures multiset(c)[row] ==
                  if row.timestamp.Moment? && row.timestamp.micros > now - days * MicrosPerDay then multiset(log)[row] else 0
      {
        FilterCount(log, IsRecent(now, days), row);
      }
    }
  }

  /** The fallback gives a result whenever the log names a product and the
      limit is positive. */
  lemma FallbackNotEmpty(log: seq<LogRow>, now: int, days: int, limit: int, k: nat)
    requires RecentRows(log, now, days) == []
    requires k < |log| && log[k].productId.Some? && limit > 0
    ensures |TrendingCounts(log, now, days, limit)| > 0
  {
    var ids := ProductIds(log);
    assert log[k].productId.value in ids;
    var j := ValueCountsCovers(ids, log[k].productId.value);
    TakeElements(ValueCounts(ids), limit);
  }

  lemma {:induction false} UnlabelledRowsNoIds(rows: seq<LogRow>)
    requires forall i :: 0 <= i < |rows| ==> rows[i].productId.None?
    ensures ProductIds(rows) == []
  {
    if rows != [] {
      assert forall i :: 0 <= i < |rows[1..]| ==> rows[1..][i] == rows[i + 1];
      UnlabelledRowsNoIds(rows[1..]);
    }
  }

  /** The fallback is decided by the rows in the window, not by what they
      count: a window holding only rows without a product id gives no
      trending products at all. */
  lemma WindowOfUnlabelledRows(log: seq<LogRow>, now: int, days: int, limit: int)
    requires RecentRows(log, now, days) != []
    requires forall i :: 0 <= i < |RecentRows(log, now, days)| ==> RecentRows(log, now, days)[i].productId.None?
    ensures TrendingCounts(log, now, days, limit) == []
  {
    UnlabelledRowsNoIds(RecentRows(log, now, days));
  }

  /** `TrendingProduct`: a card and the number of interactions counted. */
  datatype TrendingProduct = TrendingProduct(card: ProductCard, interactionCount: nat)

  /** The catalog has a product with the count's id. */
  predicate Known(catalog: seq<Product>, c: Count) {
    ProductInfo(catalog, c.productId).Some?
  }

  function KnownIn(catalog: seq<Product>): Count -> bool {
    (c: Count) => Known(catalog, c)
  }

  function ToTrending(catalog: seq<Product>, c: Count): TrendingProduct
    requires Known(catalog, c)
  {
    TrendingProduct(CardOf(Text(c.productId), ProductInfo(catalog, c.productId).value), c.count)
  }

  function ToTrendingAll(catalog: seq<Product>, cs: seq<Count>): (r: seq<TrendingProduct>)
    requires forall c :: c in cs ==> Known(catalog, c)
    ensures |r| == |cs| && forall i :: 0 <= i < |cs| ==> r[i] == ToTrending(catalog, cs[i])
  {
    if cs == [] then [] else [ToTrending(catalog, cs[0])] + ToTrendingAll(catalog, cs[1..])
  }

  /** The loop over the kept counts: ids the catalog lacks are skipped. */
  function ResolveCounts(catalog: seq<Product>, counts: seq<Count>): (r: seq<TrendingProduct>)
    ensures |r| <= |counts|
  {
    if counts == [] then []
    else
      var rest := ResolveCounts(catalog, counts[1..]);
      match ProductInfo(catalog, counts[0].productId)
      case None => rest
      case Some(p) => [TrendingProduct(CardOf(Text(counts[0].productId), p), counts[0].count)] + rest
  }

  /** The loop keeps, in order, exactly the counts whose id the catalog has. */
  lemma {:induction false} ResolveIsFilterThenMap(catalog: seq<Product>, counts: seq<Count>)
    ensures ResolveCounts(catalog, counts) == ToTrendingAll(catalog, Filter(counts, KnownIn(catalog)))
  {
    if counts != [] {
      ResolveIsFilterThenMap(catalog, counts[1..]);
      var kept := Filter(counts[1..], KnownIn(catalog));
      if Known(catalog, counts[0]) {
        assert ToTrendingAll(catalog, [counts[0]] + kept)[1..] == ToTrendingAll(catalog, kept);
      }
    }
  }

  /** The trending products of `get_trending_products(days, limit)` once
      the window start is computed, with `now` the clock reading. */
  function Trending(catalog: seq<Product>, log: seq<LogRow>, now: int, days: int, limit: int): seq<TrendingProduct> {
    ResolveCounts(catalog, TrendingCounts(log, now, days, limit))
  }

  /** The first and the last day a Python `datetime` can hold, counted from
      1970-01-01, and the first and last microsecond of them as clock
      readings: 0001-01-01 00:00:00 and 9999-12-31 23:59:59.999999. */
  const FirstDay: int := -719_162
  const LastDay: int := 2_932_896
  const FirstDatetime: int := FirstDay * MicrosPerDay
  const LastDatetime: int := (LastDay + 1) * MicrosPerDay - 1

  /** The largest number of days a `timedelta` holds either way. */
  const MaxDeltaDays: int := 999_999_999

  /** `FirstDay` is 1 January of year 1 in the calendar the stamps use. */
  lemma FirstDayIsYearOne()
    ensures CivilFromDays(FirstDay) == (1, 1, 1)
  {
    var z := FirstDay + 719_468;
    assert z == 306 && z / 146_097 == 0 && z % 146_097 == 306;
    assert (306 - 306 / 1_460 + 306 / 36_524 - 306 / 146_096) / 365 == 0;
    assert 306 - (365 * 0 + 0 / 4 - 0 / 100) == 306;
    assert (5 * 306 + 2) / 153 == 10 && (153 * 10 + 2) / 5 == 306;
  }

  /** `LastDay` is 31 December of year 9999, the day after it 1 January of
      year 10000. */
  lemma LastDayIsYear9999()
    ensures CivilFromDays(LastDay) == (9999, 12, 31)
    ensures CivilFromDays(LastDay + 1) == (10000, 1, 1)
  {
    var z := LastDay + 719_468;
    assert z == 3_652_364 && z / 146_097 == 24 && z % 146_097 == 146_036;
    assert (146_036 - 146_036 / 1_460 + 146_036 / 36_524 - 146_036 / 146_096) / 365 == 399;
    assert 146_036 - (365 * 399 + 399 / 4 - 399 / 100) == 305;
    assert (5 * 305 + 2) / 153 == 9 && (153 * 9 + 2) / 5 == 275;
    assert (z + 1) / 146_097 == 24 && (z + 1) % 146_097 == 146_037;
    assert (146_037 - 146_037 / 1_460 + 146_037 / 36_524 - 146_037 / 146_096) / 365 == 399;
    assert 146_037 - (365 * 399 + 399 / 4 - 399 / 100) == 306;
    assert (5 * 306 + 2) / 153 == 10 && (153 * 10 + 2) / 5 == 306;
  }

  /** `datetime.now() - timedelta(days=days)`: the start of the window, or
      the text of the OverflowError Python raises on the way. A day count
      beyond a C `int` fails converting, one beyond `MaxDeltaDays` fails
      building the `timedelta`, and a start outside the `datetime` range
      fails the subtraction. */
  function WindowStart(now: int, days: int): (r: Result<int>)
    ensures r.Success? <==>
              -MaxDeltaDays <= days <= MaxDeltaDays && FirstDatetime <= now - days * MicrosPerDay <= LastDatetime
    ensures r.Success? ==> r.value == now - days * MicrosPerDay
  {
    if days < -0x8000_0000 || days > 0x7FFF_FFFF then Failure("Python int too large to convert to C int")
    else if days < -MaxDeltaDays || days > MaxDeltaDays then
      Failure("days=" + IntToString(days) + "; must have magnitude <= 999999999")
    else if now - days * MicrosPerDay < FirstDatetime || now - days * MicrosPerDay > LastDatetime then
      Failure("date value out of range")
    else Success(now - days * MicrosPerDay)
  }

  const TrendingError := "Error getting trending products: "

  /** `get_trending_products(days, limit)`: it fails, with the prefix, exactly
      when the window start cannot be computed, and otherwise gives the
      trending products. */
  function GetTrending(catalog: seq<Product>, log: seq<LogRow>, now: int, days: int, limit: int): (r: Result<seq<TrendingProduct>>)
    ensures r.Failure? <==>
              !(-MaxDeltaDays <= days <= MaxDeltaDays && FirstDatetime <= now - days * MicrosPerDay <= LastDatetime)
    ensures r.Failure? ==> IsPrefix(TrendingError, r.error)
    ensures r.Success? ==> r.value == Trending(catalog, log, now, days, limit)
  {
    match WindowStart(now, days)
    case Failure(e) => Failure(TrendingError + e)
    case Success(_) => Success(Trending(catalog, log, now, days, limit))
  }

  /** With the default window of 7 days, trending succeeds for every clock
      reading from the eighth day of year 1 to the end of year 9999. */
  lemma DefaultWindowSucceeds(catalog: seq<Product>, log: seq<LogRow>, now: int, limit: int)
    requires FirstDatetime + 7 * MicrosPerDay <= now <= LastDatetime
    ensures GetTrending(catalog, log, now, 7, limit) == Success(Trending(catalog, log, now, 7, limit))
  {
  }

  /** Skipping unknown ids keeps the counts in non-increasing order. */
  lemma ResolveCountsSorted(catalog: seq<Product>, counts: seq<Count>)
    requires SortedDesc(counts, CountKey)
    ensures forall i, j :: 0 <= i < j < |ResolveCounts(catalog, counts)| ==>
              ResolveCounts(catalog, counts)[j].interactionCount <= ResolveCounts(catalog, counts)[i].interactionCount
  {
    var kept := Filter(counts, KnownIn(catalog));
    var r := ResolveCounts(catalog, counts);
    ResolveIsFilterThenMap(catalog, counts);
    FilterSorted(counts, KnownIn(catalog), CountKey);
    forall i, j | 0 <= i < j < |r| ensures r[j].interactionCount <= r[i].interactionCount {
      assert KeyLe(CountKey(kept[j]), CountKey(kept[i]));
    }
  }

  /** The count a trending product comes from. */
  lemma ResolveEntry(catalog: seq<Product>, counts: seq<Count>, i: nat) returns (m: nat)
    requires i < |ResolveCounts(catalog, counts)|
    ensures m < |counts| && Known(catalog, counts[m])
    ensures ResolveCounts(catalog, counts)[i] == ToTrending(catalog, counts[m])
  {
    var kept := Filter(counts, KnownIn(catalog));
    ResolveIsFilterThenMap(catalog, counts);
    assert kept[i] in counts;
    m :| 0 <= m < |counts| && counts[m] == kept[i];
  }

  /** Every trending product comes from a kept count the catalog knows. */
  lemma ResolveCountsSound(catalog: seq<Product>, counts: seq<Count>)
    ensures forall i :: 0 <= i < |ResolveCounts(catalog, counts)| ==>
              exists m :: 0 <= m < |counts| && Known(catalog, counts[m]) &&
                ResolveCounts(catalog, counts)[i] == ToTrending(catalog, counts[m])
  {
    var kept := Filter(counts, KnownIn(catalog));
    var r := ResolveCounts(catalog, counts);
    ResolveIsFilterThenMap(catalog, counts);
    forall i | 0 <= i < |r|
      ensures exists m :: 0 <= m < |counts| && Known(catalog, counts[m]) && r[i] == ToTrending(catalog, counts[m])
    {
      assert kept[i] in counts;
    }
  }

  /** No kept count the catalog knows is dropped. */
  lemma ResolveCountsComplete(catalog: seq<Product>, counts: seq<Count>, m: nat)
    requires m < |counts| && Known(catalog, counts[m])
    ensures ToTrending(catalog, counts[m]) in ResolveCounts(catalog, counts)
  {
    var kept := Filter(counts, KnownIn(catalog));
    ResolveIsFilterThenMap(catalog, counts);
    FilterCount(counts, KnownIn(catalog), counts[m]);
    assert counts[m] in multiset(kept);
    var k :| 0 <= k < |kept| && kept[k] == counts[m];
    assert ResolveCounts(catalog, counts)[k] == ToTrending(catalog, counts[m]);
  }

  lemma TrendingLength(catalog: seq<Product>, log: seq<LogRow>, now: int, days: int, limit: int)
    ensures limit >= 0 ==> |Trending(catalog, log, now, days, limit)| <= limit
  {
    TakeElements(ValueCounts(ProductIds(CountedRows(log, now, days))), limit);
  }

  lemma TrendingSorted(catalog: seq<Product>, log: seq<LogRow>, now: int, days: int, limit: int)
    ensures var r := Trending(catalog, log, now, days, limit);
            forall i, j :: 0 <= i < j < |r| ==> r[j].interactionCount <= r[i].interactionCount
  {
    TrendingCountsExact(log, now, days, limit);
    ResolveCountsSorted(catalog, TrendingCounts(log, now, days, limit));
  }

  lemma TrendingEntry(catalog: seq<Product>, log: seq<LogRow>, now: int, days: int, limit: int, i: nat)
    requires i < |Trending(catalog, log, now, days, limit)|
    ensures var p := Trending(catalog, log, now, days, limit)[i];
            && p.card.productId.Text?
            && ProductInfo(catalog, p.card.productId.s).Some?
            && p.interactionCount == Occurrences(CountedRows(log, now, days), p.card.productId.s) > 0
  {
    var t := TrendingCounts(log, now, days, limit);
    TrendingCountsExact(log, now, days, limit);
    var m := ResolveEntry(catalog, t, i);
    assert Trending(catalog, log, now, days, limit)[i].card.productId == Text(t[m].productId);
  }

  /** Trending products: at most `limit` of them (for a non-negative
      limit), each a catalog product with its number of counted rows, in
      non-increasing order of count. */
  lemma TrendingContract(catalog: seq<Product>, log: seq<LogRow>, now: int, days: int, limit: int)
    ensures limit >= 0 ==> |Trending(catalog, log, now, days, limit)| <= limit
    ensures var r := Trending(catalog, log, now, days, limit);
            forall i, j :: 0 <= i < j < |r| ==> r[j].interactionCount <= r[i].interactionCount
    ensures var r, rows := Trending(catalog, log, now, days, limit), CountedRows(log, now, days);
            forall i :: 0 <= i < |r| ==>
              (r[i].card.productId.Text? &&
               ProductInfo(catalog, r[i].card.productId.s).Some? &&
               r[i].interactionCount == Occurrences(rows, r[i].card.productId.s) > 0)
  {
    TrendingLength(catalog, log, now, days, limit);
    TrendingSorted(catalog, log, now, days, limit);
    forall i | 0 <= i < |Trending(catalog, log, now, days, limit)|
      ensures var p := Trending(catalog, log, now, days, limit)[i];
              && p.card.productId.Text?
              && ProductInfo(catalog, p.card.productId.s).Some?
              && p.interactionCount == Occurrences(CountedRows(log, now, days), p.card.productId.s) > 0
    {
      TrendingEntry(catalog, log, now, days, limit, i);
    }
  }

  // ---------------------------------------------------------------------
  // Search and similar products

  function SimKey(sims: seq<real>): nat -> Key {
    (i: nat) => if i < |sims| then Val(sims[i]) else Missing
  }

  lemma RankMembers(sims: seq<real>)
    ensures var rank := SortDesc<nat>(Range(|sims|), SimKey(sims));
      && NoDups(rank)
      && (forall i :: 0 <= i < |rank| ==> rank[i] < |sims|)
      && (forall k :: 0 <= k < |sims| ==> k in rank)
  {
    var range := Range(|sims|);
    var rank := SortDesc<nat>(range, SimKey(sims));
    PermutationNoDups(range, rank);
    forall i | 0 <= i < |rank| ensures rank[i] < |sims| {
      assert rank[i] in multiset(range);
    }
    forall k | 0 <= k < |sims| ensures k in rank {
      assert range[k] == k;
      assert k in multiset(rank);
    }
  }

  /** `similarities.argsort()[::-1]`: every position exactly once, by
      non-increasing similarity. */
  function RankBySimilarity(sims: seq<real>): (rank: seq<nat>)
    ensures |rank| == |sims| && NoDups(rank)
    ensures forall i :: 0 <= i < |rank| ==> rank[i] < |sims|
    ensures forall k :: 0 <= k < |sims| ==> k in rank
    ensures forall i, j :: 0 <= i < j < |rank| ==> sims[rank[j]] <= sims[rank[i]]
  {
    RankMembers(sims);
    var rank := SortDesc<nat>(Range(|sims|), SimKey(sims));
    assert forall i, j :: 0 <= i < j < |rank| ==> KeyLe(SimKey(sims)(rank[j]), SimKey(sims)(rank[i]));
    rank
  }

  const OutOfBoundsMessage: string := "single positional indexer is out-of-bounds"

  /** `product_df.iloc[idx]` as a result: the row's id (or ''), name,
      description and price, and the similarity at `idx`. */
  function ScoredAt(catalog: seq<Product>, sims: seq<real>, idx: nat): Scored
    requires idx < |catalog| && idx < |sims|
  {
    Scored(CardOf(Get(catalog[idx], "id", Text("")), catalog[idx]), sims[idx])
  }

  /** The loop over ranked positions; the first position past the end of the
      catalog raises IndexError. */
  function CardsAt(catalog: seq<Product>, sims: seq<real>, idxs: seq<nat>): (r: Result<seq<Scored>>)
    requires forall i :: 0 <= i < |idxs| ==> idxs[i] < |sims|
    ensures r.Failure? <==> exists i :: 0 <= i < |idxs| && idxs[i] >= |catalog|
    ensures r.Failure? ==> r.error == OutOfBoundsMessage
    ensures r.Success? ==> |r.value| == |idxs|
    ensures r.Success? ==> forall i :: 0 <= i < |idxs| ==> r.value[i] == ScoredAt(catalog, sims, idxs[i])
  {
    if idxs == [] then Success([])
    else if idxs[0] >= |catalog| then Failure(OutOfBoundsMessage)
    else
      assert forall i :: 0 < i < |idxs| ==> idxs[i] == idxs[1..][i - 1];
      match CardsAt(catalog, sims, idxs[1..])
      case Failure(e) => Failure(e)
      case Success(rest) => Success([ScoredAt(catalog, sims, idxs[0])] + rest)
  }

  const SearchError: string := "Error searching products: "

  /** `argsort()[::-1][:num_results]`. */
  function SearchIndices(sims: seq<real>, num: int): (idxs: seq<nat>)
    ensures forall i :: 0 <= i < |idxs| ==> idxs[i] < |sims|
  {
    Take(RankBySimilarity(sims), num)
  }

  /** `search_products(query, num_results)`, given the similarities of the
      query to the catalog's embeddings. */
  function Search(catalog: seq<Product>, sims: seq<real>, num: int): Result<seq<Scored>> {
    Prefixed(SearchError, CardsAt(catalog, sims, SearchIndices(sims, num)))
  }

  /** The positions a search returns: as many as `[:num_results]` gives,
      none twice, by non-increasing similarity, and no position left out is
      more similar than one returned. */
  lemma SearchIndicesContract(sims: seq<real>, num: int)
    ensures |SearchIndices(sims, num)| == TakeLength(|sims|, num)
    ensures NoDups(SearchIndices(sims, num))
    ensures var idxs := SearchIndices(sims, num);
            forall i, j :: 0 <= i < j < |idxs| ==> sims[idxs[j]] <= sims[idxs[i]]
    ensures var idxs := SearchIndices(sims, num);
            forall k, i :: 0 <= k < |sims| && k !in idxs && 0 <= i < |idxs| ==> sims[k] <= sims[idxs[i]]
  {
    var rank := RankBySimilarity(sims);
    var idxs := SearchIndices(sims, num);
    assert idxs == rank[..|idxs|];
    forall k, i | 0 <= k < |sims| && k !in idxs && 0 <= i < |idxs| ensures sims[k] <= sims[idxs[i]] {
      assert k in rank;
      var j :| 0 <= j < |rank| && rank[j] == k;
      assert idxs[i] == rank[i];
    }
  }

  /** With one similarity per catalog row, a search succeeds and returns
      the rows at the top positions with their similarities, in
      non-increasing order of score. */
  lemma SearchContract(catalog: seq<Product>, sims: seq<real>, num: int)
    requires |sims| == |catalog|
    ensures Search(catalog, sims, num).Success?
    ensures |Search(catalog, sims, num).value| == TakeLength(|catalog|, num)
    ensures var r, idxs := Search(catalog, sims, num).value, SearchIndices(sims, num);
            forall i :: 0 <= i < |r| ==> r[i] == ScoredAt(catalog, sims, idxs[i])
    ensures var r := Search(catalog, sims, num).value;
            forall i, j :: 0 <= i < j < |r| ==> r[j].score <= r[i].score
  {
    SearchIndicesContract(sims, num);
  }

  /** The ranking with `target` moved to the front. */
  function TargetFirst(rank: seq<nat>, target: nat): seq<nat> {
    [target] + Filter(rank, Other(target))
  }

  /** `argsort()[::-1][1:limit+1]` as written: it drops whatever ranks first,
      assuming that is the product itself. */
  function SimilarIndicesAsWritten(sims: seq<real>, limit: int): (idxs: seq<nat>)
    ensures forall i :: 0 <= i < |idxs| ==> idxs[i] < |sims|
  {
    PySlice(RankBySimilarity(sims), 1, limit + 1)
  }

  /** The slice as written skips the first-ranked position and returns the
      next `min(limit, n - 1)` positions (for a non-negative limit), none
      twice, by non-increasing similarity. */
  lemma SimilarIndicesAsWrittenContract(sims: seq<real>, limit: int)
    requires |sims| > 0
    ensures limit >= 0 ==> |SimilarIndicesAsWritten(sims, limit)| == if limit < |sims| - 1 then limit else |sims| - 1
    ensures NoDups(SimilarIndicesAsWritten(sims, limit))
    ensures RankBySimilarity(sims)[0] !in SimilarIndicesAsWritten(sims, limit)
    ensures var idxs := SimilarIndicesAsWritten(sims, limit);
            forall i, j :: 0 <= i < j < |idxs| ==> sims[idxs[j]] <= sims[idxs[i]]
  {
    var rank := RankBySimilarity(sims);
    var idxs := SimilarIndicesAsWritten(sims, limit);
    SliceSorted(rank, 1, limit + 1, SimKey(sims));
    assert Clamp(1, |rank|) == 1;
    forall k | 0 <= k < |idxs| ensures idxs[k] != rank[0] {
      assert idxs[k] == rank[1 + k];
    }
    forall i, j | 0 <= i < j < |idxs| ensures sims[idxs[j]] <= sims[idxs[i]] {
      assert idxs[i] == rank[1 + i] && idxs[j] == rank[1 + j];
    }
  }

  /** Dropping the first element of `TargetFirst` leaves the other positions
      in rank order. */
  lemma TargetFirstSlice(rank: seq<nat>, target: nat, n: nat, limit: int)
    requires forall i :: 0 <= i < |rank| ==> rank[i] < n
    ensures var others, idxs := Filter(rank, Other(target)), PySlice(TargetFirst(rank, target), 1, limit + 1);
      && |idxs| <= |others|
      && (forall i :: 0 <= i < |idxs| ==> idxs[i] == others[i] && idxs[i] < n && idxs[i] != target)
  {
    var others, tf := Filter(rank, Other(target)), TargetFirst(rank, target);
    var idxs := PySlice(tf, 1, limit + 1);
    assert Clamp(1, |tf|) == 1;
    forall i | 0 <= i < |idxs| ensures idxs[i] == others[i] && idxs[i] < n && idxs[i] != target {
      assert idxs[i] == tf[1 + i];
      assert others[i] in others;
    }
  }

  /** The same slice taken after moving the product itself to the front, so
      that what is dropped is the product itself. */
  function SimilarIndices(sims: seq<real>, target: nat, limit: int): (idxs: seq<nat>)
    ensures |idxs| <= |Filter(RankBySimilarity(sims), Other(target))|
    ensures forall i :: 0 <= i < |idxs| ==> idxs[i] < |sims| && idxs[i] != target
    ensures var others := Filter(RankBySimilarity(sims), Other(target));
            forall i :: 0 <= i < |idxs| ==> idxs[i] == others[i]
  {
    TargetFirstSlice(RankBySimilarity(sims), target, |sims|, limit);
    PySlice(TargetFirst(RankBySimilarity(sims), target), 1, limit + 1)
  }

  /** Two equal similarities: the model's descending sort puts the later
      position first. numpy promises no order for ties; this is one of the
      orders it may give. */
  lemma TieRanksLaterFirst()
    ensures RankBySimilarity([1.0, 1.0]) == [1, 0]
  {
    var key := SimKey([1.0, 1.0]);
    assert Range(2) == [0, 1];
    assert [0, 1][1..] == [1];
    assert SortDesc<nat>([1], key) == [1];
    assert KeyLe(key(0), key(1));
    assert InsertDesc<nat>(0, [1], key) == [1, 0];
  }

  /** The card for position 0 of a two-row catalog whose first id is "a". */
  lemma FirstCardIsA(catalog: seq<Product>)
    requires catalog == [map["id" := Text("a")], map["id" := Text("b")]]
    ensures CardsAt(catalog, [1.0, 1.0], [0]).Success?
    ensures CardsAt(catalog, [1.0, 1.0], [0]).value[0].card.productId == Text("a")
  {
    var r := CardsAt(catalog, [1.0, 1.0], [0]);
    assert r.Success?;
    assert r.value[0] == ScoredAt(catalog, [1.0, 1.0], 0);
    assert Get(catalog[0], "id", Text("")) == Text("a");
  }

  /** Whatever order the ranking gives equal similarities, a product that
      does not rank first but ranks within the first `limit + 1` positions
      comes back among its own similar products. */
  lemma SimilarAsWrittenKeepsTarget(sims: seq<real>, target: nat, limit: int, j: nat)
    requires 0 < j < |sims| && j <= limit && RankBySimilarity(sims)[j] == target
    ensures target in SimilarIndicesAsWritten(sims, limit)
  {
    var idxs := SimilarIndicesAsWritten(sims, limit);
    assert idxs[j - 1] == RankBySimilarity(sims)[j];
  }

  /** Two catalog rows with the same embedding: the model's ranking puts the
      second first, so the slice as written drops the other row and
      `get_similar_products("a", 1)` returns product "a" itself as its own
      most similar product. Under the other tie order the query for "b"
      returns "b" (`SimilarAsWrittenKeepsTarget`). */
  lemma SimilarAsWrittenReturnsTarget()
    ensures FirstMatch([map["id" := Text("a")], map["id" := Text("b")]], "a") == Some(0)
    ensures SimilarIndicesAsWritten([1.0, 1.0], 1) == [0]
    ensures var r := Similar([map["id" := Text("a")], map["id" := Text("b")]], [1.0, 1.0], 0, 1);
            r.Success? && |r.value| == 1 && r.value[0].card.productId == Text("a")
  {
    TieRanksLaterFirst();
    assert PySlice([1, 0], 1, 2) == [0];
    var catalog: seq<Product> := [map["id" := Text("a")], map["id" := Text("b")]];
    assert HasId(catalog[0], "a");
    FirstCardIsA(catalog);
  }

  /** The positions other than the product itself, by non-increasing
      similarity. */
  function Others(sims: seq<real>, target: nat): seq<nat> {
    Filter(RankBySimilarity(sims), Other(target))
  }

  lemma OthersSorted(sims: seq<real>, target: nat)
    ensures SortedDesc(Others(sims, target), SimKey(sims))
    ensures forall i :: 0 <= i < |Others(sims, target)| ==> Others(sims, target)[i] < |sims|
  {
    var rank := RankBySimilarity(sims);
    var key := SimKey(sims);
    assert SortedDesc(rank, key) by {
      forall i, j | 0 <= i < j < |rank| ensures KeyLe(key(rank[j]), key(rank[i])) {
      }
    }
    FilterSorted(rank, Other(target), key);
    assert forall i :: 0 <= i < |Others(sims, target)| ==> Others(sims, target)[i] in rank;
  }

  /** The corrected slice never returns the product itself, returns
      `min(limit, n - 1)` positions for a non-negative limit, and none
      twice. */
  lemma SimilarIndicesContract(sims: seq<real>, target: nat, limit: int)
    requires target < |sims|
    ensures target !in SimilarIndices(sims, target, limit)
    ensures limit >= 0 ==> |SimilarIndices(sims, target, limit)| == if limit < |sims| - 1 then limit else |sims| - 1
    ensures NoDups(SimilarIndices(sims, target, limit))
  {
    var rank := RankBySimilarity(sims);
    var others := Others(sims, target);
    var idxs := SimilarIndices(sims, target, limit);
    assert target in rank;
    NoDupsCount(rank, target);
    FilterOtherLength(rank, target);
    FilterNoDups(rank, Other(target));
    assert idxs == others[..|idxs|];
  }

  /** The corrected slice is by non-increasing similarity. */
  lemma SimilarIndicesSorted(sims: seq<real>, target: nat, limit: int)
    ensures var idxs := SimilarIndices(sims, target, limit);
            forall i, j :: 0 <= i < j < |idxs| ==> sims[idxs[j]] <= sims[idxs[i]]
  {
    var others := Others(sims, target);
    var idxs := SimilarIndices(sims, target, limit);
    var key := SimKey(sims);
    OthersSorted(sims, target);
    forall i, j | 0 <= i < j < |idxs| ensures sims[idxs[j]] <= sims[idxs[i]] {
      assert KeyLe(key(others[j]), key(others[i]));
    }
  }

  /** No position left out other than the product itself is more similar
      than one returned. */
  lemma SimilarIndicesAreTop(sims: seq<real>, target: nat, limit: int, k: nat, i: nat)
    requires k < |sims| && k != target && k !in SimilarIndices(sims, target, limit)
    requires i < |SimilarIndices(sims, target, limit)|
    ensures sims[k] <= sims[SimilarIndices(sims, target, limit)[i]]
  {
    var rank := RankBySimilarity(sims);
    var others := Others(sims, target);
    var idxs := SimilarIndices(sims, target, limit);
    var key := SimKey(sims);
    OthersSorted(sims, target);
    assert idxs == others[..|idxs|];
    assert k in rank;
    FilterCount(rank, Other(target), k);
    assert k in multiset(others);
    var j :| 0 <= j < |others| && others[j] == k;
    InPrefix(others, |idxs|, j);
    assert KeyLe(key(others[j]), key(others[i]));
  }

  /** Where the product itself does rank first, the correction changes
      nothing. */
  lemma CorrectionAgreesWhenTargetRanksFirst(sims: seq<real>, target: nat, limit: int)
    requires |sims| > 0 && RankBySimilarity(sims)[0] == target
    ensures SimilarIndices(sims, target, limit) == SimilarIndicesAsWritten(sims, limit)
  {
    var rank := RankBySimilarity(sims);
    var tail := rank[1..];
    assert rank == [target] + tail;
    forall i | 0 <= i < |tail| ensures Other(target)(tail[i]) {
      assert tail[i] == rank[i + 1];
    }
    FilterAllPass(tail, Other(target));
    assert Filter(rank, Other(target)) == Filter(tail, Other(target));
    assert TargetFirst(rank, target) == rank;
  }

  const SimilarError: string := "Error getting similar products: "
  const ProductNotFound: string := "Product not found"

  /** numpy's IndexError for a row index past the embeddings. */
  function IndexErrorMessage(index: nat, size: nat): string {
    "index " + IntToString(index) + " is out of bounds for axis 0 with size " + IntToString(size)
  }

  /** The result of `get_similar_products` once the product is found at
      position `target` and `sims` is its row of similarities: the cards of
      `argsort()[::-1][1:limit+1]`. The slice ignores `target`; the
      parameter is kept so that `Similar` and `SimilarCorrected` take the
      same arguments. */
  function Similar(catalog: seq<Product>, sims: seq<real>, target: nat, limit: int): Result<seq<Scored>> {
    Prefixed(SimilarError, CardsAt(catalog, sims, SimilarIndicesAsWritten(sims, limit)))
  }

  /** With one similarity per catalog row, the program's similar products
      are `min(limit, n - 1)` rows (for a non-negative limit), none twice, by
      non-increasing similarity; the first-ranked row is skipped, and when
      that row is the product itself the result is the corrected one. */
  lemma SimilarAsWrittenContract(catalog: seq<Product>, sims: seq<real>, target: nat, limit: int)
    requires |sims| == |catalog| && target < |catalog|
    ensures Similar(catalog, sims, target, limit).Success?
    ensures limit >= 0 ==>
              |Similar(catalog, sims, target, limit).value| == if limit < |catalog| - 1 then limit else |catalog| - 1
    ensures var r := Similar(catalog, sims, target, limit).value;
            forall i, j :: 0 <= i < j < |r| ==> r[j].score <= r[i].score
    ensures RankBySimilarity(sims)[0] == target ==> Similar(catalog, sims, target, limit) == SimilarCorrected(catalog, sims, target, limit)
  {
    SimilarIndicesAsWrittenContract(sims, limit);
    if RankBySimilarity(sims)[0] == target {
      CorrectionAgreesWhenTargetRanksFirst(sims, target, limit);
    }
  }

  /** The corrected similar products: the same cards taken from
      `SimilarIndices`, which never holds the product itself. */
  function SimilarCorrected(catalog: seq<Product>, sims: seq<real>, target: nat, limit: int): Result<seq<Scored>> {
    Prefixed(SimilarError, CardsAt(catalog, sims, SimilarIndices(sims, target, limit)))
  }

  /** With one similarity per catalog row and ids that tell rows apart, the
      corrected similar products are `min(limit, n - 1)` other products, by
      non-increasing similarity, none of them the product itself. */
  lemma SimilarCorrectedContract(catalog: seq<Product>, sims: seq<real>, target: nat, limit: int)
    requires |sims| == |catalog| && target < |catalog|
    requires forall k :: 0 <= k < |catalog| && k != target ==>
               Get(catalog[k], "id", Text("")) != Get(catalog[target], "id", Text(""))
    ensures SimilarCorrected(catalog, sims, target, limit).Success?
    ensures limit >= 0 ==>
              |SimilarCorrected(catalog, sims, target, limit).value| == if limit < |catalog| - 1 then limit else |catalog| - 1
    ensures var r := SimilarCorrected(catalog, sims, target, limit).value;
            forall i :: 0 <= i < |r| ==> r[i].card.productId != Get(catalog[target], "id", Text(""))
    ensures var r := SimilarCorrected(catalog, sims, target, limit).value;
            forall i, j :: 0 <= i < j < |r| ==> r[j].score <= r[i].score
  {
    SimilarIndicesContract(sims, target, limit);
    SimilarIndicesSorted(sims, target, limit);
  }

  /** `MLServices`: the ranking services over the data manager, which they
      only read. */
  class MLServices {
    const dataManager: DataManager

    constructor (dataManager: DataManager)
      ensures this.dataManager == dataManager
    {
      this.dataManager := dataManager;
    }

    /** `get_recommendations(user_id, num_recommendations)`; `recommend`
        stands for `cf_model.recommend(user_index, user_items, N=num)`. */
    method GetRecommendations(userId: string, num: int, recommend: (int, int) -> CfOutput) returns (r: Result<seq<Scored>>)
      ensures var out := recommend(UserIndex(dataManager.userMap, userId), num);
              var collected := Collect(dataManager.catalog, dataManager.itemMap, Zip(out.itemIndices, out.scores));
              && (collected.Failure? ==> r == Failure(RecommendationError + collected.error))
              && (collected.Success? ==> r == Success(Take(collected.value, num)))
      ensures r.Failure? ==> IsPrefix(RecommendationError, r.error)
      ensures r.Success? && num >= 0 ==> |r.value| <= num
      ensures r.Success? ==> forall i :: 0 <= i < |r.value| ==> SaneScore(r.value[i].score)
    {
      var userIndex := FindUserIndex(dataManager.userMap, userId);
      var out := recommend(userIndex, num);
      var collected := Collect(dataManager.catalog, dataManager.itemMap, Zip(out.itemIndices, out.scores));
      match collected
      case Failure(e) =>
        r := Failure(RecommendationError + e);
      case Success(recs) =>
        r := Success(Take(recs, num));
    }

    /** `get_similar_products(product_id, limit)`; `similarity` stands for
        the matrix of cosine similarities between the embeddings, whose row
        `i` is what `cosine_similarity` gives for the embedding of row `i`.
        The slice drops whatever ranks first, as `ml_services.py` line 150 does (see
        `SimilarCorrected` for the intended result). */
    method GetSimilarProducts(productId: string, limit: int, similarity: seq<seq<real>>) returns (r: Result<seq<Scored>>)
      ensures FirstMatch(dataManager.catalog, productId).None? ==> r == Failure(SimilarError + ProductNotFound)
      ensures FirstMatch(dataManager.catalog, productId).Some? ==>
                var target := FirstMatch(dataManager.catalog, productId).value;
                && (target >= |similarity| ==> r == Failure(SimilarError + IndexErrorMessage(target, |similarity|)))
                && (target < |similarity| ==> r == Similar(dataManager.catalog, similarity[target], target, limit))
    {
      var index := FindProductIndex(dataManager.catalog, productId);
      if index.None? {
        return Failure(SimilarError + ProductNotFound);
      }
      var target := index.value;
      if target >= |similarity| {
        return Failure(SimilarError + IndexErrorMessage(target, |similarity|));
      }
      r := Similar(dataManager.catalog, similarity[target], target, limit);
    }
  }
}
