/** `InteractionServices`: the six trackers that validate an event's kind,
    copy product details from the catalog into its metadata and append it
    to the log, and the two history queries over the log. */
module Tracker {
  import opened Common
  import opened Lists
  import opened Catalog
  import opened InteractionLog

  /** The tracker an event goes through, one per `track_*` method. */
  datatype Category = ProductView | Favorites | Cart | Chat | Review | Search

  /** The interaction kinds each tracker accepts. */
  function AllowedKinds(c: Category): set<string> {
    match c
    case ProductView => {"view", "view_details"}
    case Favorites => {"like", "unlike"}
    case Cart => {"add_to_cart"}
    case Chat => {"chat_message"}
    case Review => {"rating"}
    case Search => {"search"}
  }

  /** The ValueError a tracker raises for a kind it does not accept. */
  function InvalidKindMessage(c: Category): string {
    "Invalid interaction type. Must be " +
    match c
    case ProductView => "'view' or 'view_details'"
    case Favorites => "'like' or 'unlike'"
    case Cart => "'add_to_cart'"
    case Chat => "'chat_message'"
    case Review => "'rating'"
    case Search => "'search'"
  }

  const SaveFailedMessage: string := "Failed to save interaction"

  /** What each tracker puts before the text of any exception it re-raises. */
  function ErrorPrefix(c: Category): string {
    "Error tracking " +
    match c
    case ProductView => "product view: "
    case Favorites => "favorites interaction: "
    case Cart => "cart interaction: "
    case Chat => "chat interaction: "
    case Review => "review interaction: "
    case Search => "search interaction: "
  }

  function SuccessMessage(c: Category, kind: string): string {
    match c
    case ProductView => "Product " + kind + " tracked successfully"
    case Favorites => "Product " + kind + " tracked successfully"
    case Cart => "Product added to cart tracked successfully"
    case Chat => "Chat interaction tracked successfully"
    case Review => "Review interaction tracked successfully"
    case Search => "Search interaction tracked successfully"
  }

  /** Every rejection names its cause: "Invalid interaction type" for a bad
      kind, "Failed to save interaction" for a failed save. */
  lemma ErrorMessagesNameTheirCause(c: Category)
    ensures Contains(ErrorPrefix(c) + InvalidKindMessage(c), "Invalid interaction type")
    ensures Contains(ErrorPrefix(c) + SaveFailedMessage, "Failed to save interaction")
  {
    ContainsAfterPrefix(ErrorPrefix(c), "Invalid interaction type", InvalidKindMessage(c));
    ContainsAfterPrefix(ErrorPrefix(c), "Failed to save interaction", SaveFailedMessage);
  }

  // ---------------------------------------------------------------------
  // Metadata enrichment

  /** The dictionary a tracker passes to `metadata.update`, split into the
      keys whose value comes from the catalog (`overwrite`) and the keys that
      keep the caller's value, with the default used when the caller gave
      none (`keep`). */
  datatype Rule = Rule(overwrite: Fields, keep: Fields)

  predicate WellFormed(rule: Rule) {
    rule.overwrite.Keys !! rule.keep.Keys
  }

  /** `meta.update({k: v for overwrite} | {k: meta.get(k, d) for keep})`. */
  function Enrich(meta: Fields, rule: Rule): (r: Fields)
    requires WellFormed(rule)
    ensures r.Keys == meta.Keys + rule.overwrite.Keys + rule.keep.Keys
    ensures forall k :: k in rule.overwrite ==> r[k] == rule.overwrite[k]
    ensures forall k :: k in rule.keep ==> r[k] == Get(meta, k, rule.keep[k])
    ensures forall k :: k in meta && k !in rule.overwrite && k !in rule.keep ==> r[k] == meta[k]
  {
    meta + rule.overwrite + map k | k in rule.keep :: Get(meta, k, rule.keep[k])
  }

  function ProductName(p: Product): Value {
    Get(p, "name", Text("Unknown Product"))
  }

  function ProductCategory(p: Product): Value {
    Get(p, "category", Text(""))
  }

  /** The update each tracker applies once the product is found. The search
      tracker looks nothing up and has none. */
  function RuleFor(c: Category, p: Product): (rule: Rule)
    requires c != Search
    ensures WellFormed(rule)
  {
    var price := Float(ExtractPrice(p));
    match c
    case ProductView =>
      Rule(map["product_name" := ProductName(p), "category" := ProductCategory(p), "price" := price],
           map["source" := Text("flutter_app")])
    case Favorites =>
      Rule(map["product_name" := ProductName(p), "category" := ProductCategory(p), "price" := price],
           map[])
    case Cart =>
      Rule(map["product_name" := ProductName(p), "category" := ProductCategory(p), "price" := price],
           map["quantity" := Integer(1)])
    case Chat =>
      Rule(map["product_name" := ProductName(p)],
           map["seller_info" := Text(""), "message_length" := Integer(0), "chat_room_id" := Text("")])
    case Review =>
      Rule(map["product_name" := ProductName(p), "category" := ProductCategory(p)],
           map["rating_value" := Integer(0), "previous_rating" := Null])
  }

  /** The event's metadata after the lookup step: enriched when the product
      is in the catalog, the caller's own otherwise. */
  function EnrichedMetadata(c: Category, catalog: seq<Product>, productId: string, meta: Fields): Fields {
    if c == Search then meta
    else match ProductInfo(catalog, productId)
      case None => meta
      case Some(p) => Enrich(meta, RuleFor(c, p))
  }

  /** A product view found in the catalog: name, category and price come
      from the catalog, `source` keeps the caller's value or becomes
      'flutter_app', and every other key is the caller's. */
  lemma ProductViewEnrichment(catalog: seq<Product>, productId: string, meta: Fields)
    requires ProductInfo(catalog, productId).Some?
    ensures EnrichedMetadata(ProductView, catalog, productId, meta).Keys ==
              meta.Keys + {"product_name", "category", "price", "source"}
    ensures var p, r := ProductInfo(catalog, productId).value, EnrichedMetadata(ProductView, catalog, productId, meta);
      && r["product_name"] == Get(p, "name", Text("Unknown Product"))
      && r["category"] == Get(p, "category", Text(""))
      && r["price"] == Float(ExtractPrice(p))
    ensures EnrichedMetadata(ProductView, catalog, productId, meta)["source"] ==
              (if "source" in meta then meta["source"] else Text("flutter_app"))
    ensures forall k :: k in meta && k !in {"product_name", "category", "price", "source"} ==>
              EnrichedMetadata(ProductView, catalog, productId, meta)[k] == meta[k]
  {
    var p := ProductInfo(catalog, productId).value;
    var rule := RuleFor(ProductView, p);
    assert rule.overwrite == map["product_name" := ProductName(p), "category" := ProductCategory(p), "price" := Float(ExtractPrice(p))];
    assert rule.keep == map["source" := Text("flutter_app")];
    assert rule.overwrite.Keys == {"product_name", "category", "price"};
    var r := Enrich(meta, rule);
    assert r == EnrichedMetadata(ProductView, catalog, productId, meta);
    assert r["source"] == Get(meta, "source", Text("flutter_app"));
  }

  /** For every tracker, enrichment only adds keys and only overwrites the
      keys its rule takes from the catalog: a caller's key outside them
      keeps the caller's value. */
  lemma EnrichmentKeepsCallerValues(c: Category, catalog: seq<Product>, productId: string, meta: Fields)
    ensures meta.Keys <= EnrichedMetadata(c, catalog, productId, meta).Keys
    ensures forall k :: k in meta && (c == Search || ProductInfo(catalog, productId).None? ||
                                      k !in RuleFor(c, ProductInfo(catalog, productId).value).overwrite) ==>
              EnrichedMetadata(c, catalog, productId, meta)[k] == meta[k]
  {
  }

  /** A product not in the catalog leaves the caller's metadata as it was. */
  lemma UnknownProductKeepsMetadata(c: Category, catalog: seq<Product>, productId: string, meta: Fields)
    requires forall i :: 0 <= i < |catalog| ==> !HasId(catalog[i], productId)
    ensures EnrichedMetadata(c, catalog, productId, meta) == meta
  {
  }

  /** The save request each tracker builds from the (enriched) metadata. */
  function SaveRequestFor(c: Category, userId: string, productId: string, kind: string, meta: Fields): SaveRequest {
    var base := SaveRequest(Some(userId), Some(productId), Some(kind), None, None, None, None, None, None, Some(meta));
    match c
    case Cart => base.(quantity := Some(Get(meta, "quantity", Integer(1))))
    case Review => base.(rating := Some(Get(meta, "rating_value", Integer(0))),
                         review := Some(Get(meta, "review_text", Text(""))))
    case Search => base.(productId := Some(""))
    case _ => base
  }

  /** The row a tracker appends holds the caller's `quantity` (or 1) in the
      cart tracker's quantity column and the caller's `rating_value` (or 0)
      and `review_text` (or '') in the review tracker's rating and review
      columns, whether or not the product was found; every other optional
      column of every tracker's row is ''. */
  lemma SavedColumnsComeFromCaller(c: Category, catalog: seq<Product>, userId: string, productId: string, kind: string,
                                   meta: Fields, id: string, rowTime: int)
    ensures var row := NewRow(SaveRequestFor(c, userId, productId, kind, EnrichedMetadata(c, catalog, productId, meta)), id, rowTime);
            row.quantity == if c == Cart then Get(meta, "quantity", Integer(1)) else Text("")
    ensures var row := NewRow(SaveRequestFor(c, userId, productId, kind, EnrichedMetadata(c, catalog, productId, meta)), id, rowTime);
            row.rating == if c == Review then Get(meta, "rating_value", Integer(0)) else Text("")
    ensures var row := NewRow(SaveRequestFor(c, userId, productId, kind, EnrichedMetadata(c, catalog, productId, meta)), id, rowTime);
            row.review == if c == Review then Get(meta, "review_text", Text("")) else Text("")
    ensures var row := NewRow(SaveRequestFor(c, userId, productId, kind, EnrichedMetadata(c, catalog, productId, meta)), id, rowTime);
            row.value == Text("") && row.sentiment == Text("") && row.socialSharePlatform == Text("")
  {
    var p := ProductInfo(catalog, productId);
    if p.Some? {
      var cart := RuleFor(Cart, p.value);
      assert "quantity" in cart.keep;
      var review := RuleFor(Review, p.value);
      assert "rating_value" in review.keep;
      assert "review_text" !in review.keep && "review_text" !in review.overwrite;
    }
  }

  /** A search event is stored with product id '' and the caller's metadata,
      whatever product id the event carries. */
  lemma SearchSavesNoProduct(catalog: seq<Product>, userId: string, productId: string, kind: string, meta: Fields)
    ensures var m := EnrichedMetadata(Search, catalog, productId, meta);
            m == meta && SaveRequestFor(Search, userId, productId, kind, m).productId == Some("")
  {
  }

  // ---------------------------------------------------------------------
  // Tracking

  /** `InteractionResponse`. */
  datatype Response = Response(success: bool, message: string, interactionId: Option<string>)

  /** The request body of a tracking call. Its metadata dictionary is
      updated in place by the tracker. A search request has no product id
      of its own; the search tracker never reads `productId`. */
  class Interaction {
    const userId: string
    const productId: string
    const interactionType: string
    var metadata: Fields

    constructor (userId: string, productId: string, interactionType: string, metadata: Fields)
      ensures this.userId == userId && this.productId == productId
      ensures this.interactionType == interactionType && this.metadata == metadata
    {
      this.userId := userId;
      this.productId := productId;
      this.interactionType := interactionType;
      this.metadata := metadata;
    }
  }

  class InteractionServices {
    const dataManager: DataManager

    constructor (dataManager: DataManager)
      ensures this.dataManager == dataManager
    {
      this.dataManager := dataManager;
    }

    /** The lookup step of every tracker but the search tracker: the event's
        metadata is updated in place when its product is in the catalog. */
    method EnrichEvent(c: Category, event: Interaction)
      modifies event
      ensures event.metadata == EnrichedMetadata(c, dataManager.catalog, event.productId, old(event.metadata))
    {
      if c != Search {
        var info := ProductInfo(dataManager.catalog, event.productId);
        if info.Some? {
          event.metadata := Enrich(event.metadata, RuleFor(c, info.value));
        }
      }
    }

    /** `track_product_view`, `track_favorites`, `track_cart`, `track_chat`,
        `track_review` and `track_search`, selected by `c`. A kind the
        tracker does not accept is rejected before anything changes. An
        accepted event has its metadata enriched in place, then is saved;
        a failed save leaves the log as it was (the metadata stays
        enriched) and is reported as an error. */
    method Track(c: Category, event: Interaction, idTime: int, rowTime: int, appendOk: bool) returns (r: Result<Response>)
      modifies event, dataManager
      ensures event.interactionType !in AllowedKinds(c) ==>
                && r == Failure(ErrorPrefix(c) + InvalidKindMessage(c))
                && event.metadata == old(event.metadata)
                && dataManager.log == old(dataManager.log)
      ensures event.interactionType in AllowedKinds(c) ==>
                event.metadata == EnrichedMetadata(c, dataManager.catalog, event.productId, old(event.metadata))
      ensures event.interactionType in AllowedKinds(c) && appendOk ==>
                var id := InteractionId(event.userId, idTime);
                var req := SaveRequestFor(c, event.userId, event.productId, event.interactionType, event.metadata);
                && dataManager.log == old(dataManager.log) + [NewRow(req, id, rowTime)]
                && r == Success(Response(true, SuccessMessage(c, event.interactionType), Some(id)))
      ensures event.interactionType in AllowedKinds(c) && !appendOk ==>
                && dataManager.log == old(dataManager.log)
                && r == Failure(ErrorPrefix(c) + SaveFailedMessage)
    {
      if event.interactionType !in AllowedKinds(c) {
        return Failure(ErrorPrefix(c) + InvalidKindMessage(c));
      }
      EnrichEvent(c, event);
      ghost var enriched := event.metadata;
      var req := SaveRequestFor(c, event.userId, event.productId, event.interactionType, event.metadata);
      var id := dataManager.SaveInteraction(req, idTime, rowTime, appendOk);
      assert event.metadata == enriched;
      if id.Some? && id.value != "" {
        r := Success(Response(true, SuccessMessage(c, event.interactionType), id));
      } else {
        r := Failure(ErrorPrefix(c) + SaveFailedMessage);
      }
    }
  }

  // ---------------------------------------------------------------------
  // History queries

  /** `get_user_interactions` selects on `userId`, `get_product_interactions`
      on `productId`. */
  datatype Query = ByUser(userId: string) | ByProduct(productId: string)

  predicate Matches(q: Query, row: LogRow) {
    match q
    case ByUser(u) => row.userId == u
    case ByProduct(p) => row.productId == Some(p)
  }

  function MatchesQuery(q: Query): LogRow -> bool {
    row => Matches(q, row)
  }

  /** Newest first; a NaT timestamp sorts last. */
  function Recency(row: LogRow): Key {
    match row.timestamp
    case Moment(t) => Val(t as real)
    case NaT => Missing
  }

  /** `df[mask].sort_values('timestamp', ascending=False).head(limit)`. */
  function SelectRows(log: seq<LogRow>, q: Query, limit: int): seq<LogRow> {
    Take(SortDesc(Filter(log, MatchesQuery(q)), Recency), limit)
  }

  /** The metadata a history entry shows: an empty cell, the text '{}' and
      text that json.loads rejects all read as the empty map. */
  function DecodeMetadata(cell: MetadataCell): (m: Fields)
    ensures cell.Absent? || (cell.Loaded? && (cell.text == "{}" || cell.parsed.None?)) ==> m == map[]
  {
    match cell
    case Absent => map[]
    case Loaded(text, parsed) => if text == "{}" then map[] else parsed.GetOr(map[])
    case Written(saved) => saved
  }

  /** One element of `interactions`. `counterpart` is the row's product id
      in a user's history and its user id in a product's history. */
  datatype HistoryEntry = HistoryEntry(
    interactionId: string,
    counterpart: Option<string>,
    interactionType: string,
    timestamp: Timestamp,
    quantity: Value,
    rating: Value,
    review: Value,
    metadata: Fields)

  function ToEntry(q: Query, row: LogRow): HistoryEntry {
    HistoryEntry(
      row.interactionId,
      if q.ByUser? then row.productId else Some(row.userId),
      row.interactionType, row.timestamp, row.quantity, row.rating, row.review,
      DecodeMetadata(row.metadata))
  }

  /** The dictionary the queries return: the key asked about,
      `total_interactions` and `interactions`. */
  datatype History = History(key: string, totalInteractions: nat, interactions: seq<HistoryEntry>)

  function Entries(q: Query, rows: seq<LogRow>): (es: seq<HistoryEntry>)
    ensures |es| == |rows| && forall i :: 0 <= i < |rows| ==> es[i] == ToEntry(q, rows[i])
  {
    if rows == [] then [] else [ToEntry(q, rows[0])] + Entries(q, rows[1..])
  }

  /** `get_user_interactions(user_id, limit)` and
      `get_product_interactions(product_id, limit)`. */
  function GetInteractions(log: seq<LogRow>, q: Query, limit: int): (h: History)
    ensures h.totalInteractions == |h.interactions|
  {
    var es := Entries(q, SelectRows(log, q, limit));
    History(if q.ByUser? then q.userId else q.productId, |es|, es)
  }

  /** Each history entry describes the selected row at its position: its id,
      kind, timestamp and decoded metadata, and, as its counterpart, the
      row's product in a user's history and the row's user in a product's
      history. */
  lemma HistoryReportsCounterpart(log: seq<LogRow>, q: Query, limit: int)
    ensures var h, sel := GetInteractions(log, q, limit), SelectRows(log, q, limit);
            |h.interactions| == |sel| &&
            forall i :: 0 <= i < |sel| ==>
              && h.interactions[i].interactionId == sel[i].interactionId
              && h.interactions[i].interactionType == sel[i].interactionType
              && h.interactions[i].timestamp == sel[i].timestamp
              && h.interactions[i].metadata == DecodeMetadata(sel[i].metadata)
    ensures var h, sel := GetInteractions(log, q, limit), SelectRows(log, q, limit);
            q.ByUser? ==> forall i :: 0 <= i < |sel| ==>
              sel[i].userId == q.userId && h.interactions[i].counterpart == sel[i].productId
    ensures var h, sel := GetInteractions(log, q, limit), SelectRows(log, q, limit);
            q.ByProduct? ==> forall i :: 0 <= i < |sel| ==>
              sel[i].productId == Some(q.productId) && h.interactions[i].counterpart == Some(sel[i].userId)
  {
    SelectRowsContract(log, q, limit);
  }

  /** What a history query returns: only matching rows, newest first, as
      many as `head(limit)` allows, drawn from the matching rows without
      repetition, and every matching row when `limit` leaves room for all. */
  lemma SelectRowsContract(log: seq<LogRow>, q: Query, limit: int)
    ensures var sel, matching := SelectRows(log, q, limit), Filter(log, MatchesQuery(q));
      && (forall i :: 0 <= i < |sel| ==> Matches(q, sel[i]))
      && SortedDesc(sel, Recency)
      && |sel| == TakeLength(|matching|, limit)
      && multiset(sel) <= multiset(matching)
      && (limit >= |matching| ==> multiset(sel) == multiset(matching))
  {
    var matching := Filter(log, MatchesQuery(q));
    var sel := SelectRows(log, q, limit);
    TopOfSort(matching, Recency, limit);
    forall i | 0 <= i < |sel| ensures Matches(q, sel[i]) {
      assert sel[i] in multiset(sel);
      assert sel[i] in multiset(matching);
      assert sel[i] in matching;
    }
  }

  /** The rows a query leaves out are no newer than any row it returns. */
  lemma SelectRowsAreNewest(log: seq<LogRow>, q: Query, limit: int, row: LogRow)
    requires multiset(SelectRows(log, q, limit))[row] < multiset(Filter(log, MatchesQuery(q)))[row]
    ensures forall i :: 0 <= i < |SelectRows(log, q, limit)| ==> KeyLe(Recency(row), Recency(SelectRows(log, q, limit)[i]))
  {
    var sorted := SortDesc(Filter(log, MatchesQuery(q)), Recency);
    var j := DroppedOccurrence(sorted, limit, row);
    forall i | 0 <= i < |SelectRows(log, q, limit)|
      ensures KeyLe(Recency(row), Recency(SelectRows(log, q, limit)[i]))
    {
      TakeIsTop(sorted, limit, Recency, i, j);
    }
  }

  /** A matching row appended to the log is selected when the limit leaves
      room for every matching row. */
  lemma SavedRowSelected(log: seq<LogRow>, row: LogRow, q: Query, limit: int) returns (i: nat)
    requires Matches(q, row) && limit > |Filter(log, MatchesQuery(q))|
    ensures i < |SelectRows(log + [row], q, limit)| && SelectRows(log + [row], q, limit)[i] == row
  {
    FilterAppend(log, [row], MatchesQuery(q));
    assert Filter([row], MatchesQuery(q)) == [row];
    var matching := Filter(log + [row], MatchesQuery(q));
    TopOfSort(matching, Recency, limit);
    var sel := SelectRows(log + [row], q, limit);
    assert row in multiset(matching);
    assert row in multiset(sel);
    i :| 0 <= i < |sel| && sel[i] == row;
  }

  /** Metadata round trip: once a save has appended a row, the user's
      history (with room for all their rows) shows that row with the
      metadata map that was saved. */
  lemma SavedRowReadsBack(log: seq<LogRow>, req: SaveRequest, id: string, rowTime: int, limit: int)
    requires req.userId.Some? && req.interactionType.Some?
    requires limit > |Filter(log, MatchesQuery(ByUser(req.userId.value)))|
    ensures var h := GetInteractions(log + [NewRow(req, id, rowTime)], ByUser(req.userId.value), limit);
      exists i :: 0 <= i < |h.interactions| &&
        h.interactions[i].interactionId == id &&
        h.interactions[i].metadata == (if req.metadata.Some? then req.metadata.value else map[])
  {
    var row := NewRow(req, id, rowTime);
    var q := ByUser(req.userId.value);
    var i := SavedRowSelected(log, row, q, limit);
    var h := GetInteractions(log + [row], q, limit);
    assert h.interactions[i] == ToEntry(q, row);
  }
}
