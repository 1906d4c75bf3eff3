/** The interaction log (`interaction_df`) and the part of `DataManager`
    that appends to it. */
module InteractionLog {
  import opened Common
  import opened Catalog
  import opened Clock

  /** A parsed `timestamp` cell; `NaT` is what `pd.to_datetime(...,
      errors='coerce')` makes of text it cannot parse. */
  datatype Timestamp = Moment(micros: int) | NaT

  /** The `metadata` cell of a row. */
  datatype MetadataCell =
    | Absent                                         // an empty CSV cell (NaN)
    | Loaded(text: string, parsed: Option<Fields>)   // text read from the CSV and what json.loads makes of it (None: it raises)
    | Written(saved: Fields)                         // json.dumps of a map, appended by SaveInteraction

  /** One row of `interaction_df`, with its twelve columns. `productId` is
      None for an empty CSV cell, which pandas reads as NaN. */
  datatype LogRow = LogRow(
    interactionId: string,
    userId: string,
    productId: Option<string>,
    interactionType: string,
    timestamp: Timestamp,
    quantity: Value,
    value: Value,
    rating: Value,
    review: Value,
    sentiment: Value,
    socialSharePlatform: Value,
    metadata: MetadataCell)

  /** The `interaction_data` dictionary handed to `save_interaction`; None
      is a key the dictionary does not have. */
  datatype SaveRequest = SaveRequest(
    userId: Option<string>,
    productId: Option<string>,
    interactionType: Option<string>,
    quantity: Option<Value>,
    value: Option<Value>,
    rating: Option<Value>,
    review: Option<Value>,
    sentiment: Option<Value>,
    socialSharePlatform: Option<Value>,
    metadata: Option<Fields>)

  /** `f"int_{now:%Y%m%d_%H%M%S}_{user_id}"`. */
  function InteractionId(userId: string, t: int): string {
    "int_" + Stamp(t) + "_" + userId
  }

  /** Two generated ids are equal exactly when they name the same user and
      fall in the same second's stamp: nothing else tells them apart. */
  lemma InteractionIdEqual(u1: string, t1: int, u2: string, t2: int)
    ensures InteractionId(u1, t1) == InteractionId(u2, t2) <==> u1 == u2 && Stamp(t1) == Stamp(t2)
  {
    var a, b := InteractionId(u1, t1), InteractionId(u2, t2);
    if a == b {
      assert a[4..19] == Stamp(t1) && b[4..19] == Stamp(t2);
      assert a[20..] == u1 && b[20..] == u2;
    }
  }

  /** Two saves by one user within one second get the same id. */
  lemma SameSecondSameId(u: string, t1: int, t2: int)
    requires t1 / MicrosPerSecond == t2 / MicrosPerSecond
    ensures InteractionId(u, t1) == InteractionId(u, t2)
  {
  }

  /** An optional column the request leaves out is stored as ''. */
  function Column(v: Option<Value>): Value {
    v.GetOr(Text(""))
  }

  /** The row `save_interaction` builds (`csv_data`), with the id it
      generated and the reading taken for the `timestamp` column. */
  function NewRow(req: SaveRequest, id: string, rowTime: int): (row: LogRow)
    requires req.userId.Some? && req.interactionType.Some?
    ensures row.userId == req.userId.value && row.interactionType == req.interactionType.value
    ensures row.productId == Some(if req.productId.Some? then req.productId.value else "")
    ensures row.timestamp == Moment(rowTime) && row.interactionId == id
    ensures req.quantity.Some? ==> row.quantity == req.quantity.value
    ensures req.quantity.None? ==> row.quantity == Text("")
    ensures req.value.Some? ==> row.value == req.value.value
    ensures req.value.None? ==> row.value == Text("")
    ensures req.rating.Some? ==> row.rating == req.rating.value
    ensures req.rating.None? ==> row.rating == Text("")
    ensures req.review.Some? ==> row.review == req.review.value
    ensures req.review.None? ==> row.review == Text("")
    ensures req.sentiment.Some? ==> row.sentiment == req.sentiment.value
    ensures req.sentiment.None? ==> row.sentiment == Text("")
    ensures req.socialSharePlatform.Some? ==> row.socialSharePlatform == req.socialSharePlatform.value
    ensures req.socialSharePlatform.None? ==> row.socialSharePlatform == Text("")
    ensures row.metadata == Written(if req.metadata.Some? then req.metadata.value else map[])
  {
    LogRow(
      id, req.userId.value, Some(req.productId.GetOr("")), req.interactionType.value,
      Moment(rowTime),
      Column(req.quantity), Column(req.value), Column(req.rating), Column(req.review),
      Column(req.sentiment), Column(req.socialSharePlatform),
      Written(req.metadata.GetOr(map[])))
  }

  /** The data manager after `load_models`: the catalog, the recommender's
      index maps and the interaction log, of which only the log changes. */
  class DataManager {
    const catalog: seq<Product>
    /** `user_map` in its iteration order: (user index, user id) pairs. */
    const userMap: seq<(int, string)>
    /** `item_map`: item index to product id. */
    const itemMap: map<int, string>
    var log: seq<LogRow>

    constructor (catalog: seq<Product>, userMap: seq<(int, string)>, itemMap: map<int, string>, log: seq<LogRow>)
      ensures this.catalog == catalog && this.userMap == userMap && this.itemMap == itemMap
      ensures this.log == log
    {
      this.catalog := catalog;
      this.userMap := userMap;
      this.itemMap := itemMap;
      this.log := log;
    }

    /** `save_interaction`. `idTime` and `rowTime` are the two readings of
        `datetime.now()` (for the id and for the `timestamp` column);
        `appendOk` says whether appending to the CSV file succeeded. A
        missing `user_id` or `interaction_type` (KeyError) or a failed append
        returns None and leaves the log as it was. */
    method SaveInteraction(req: SaveRequest, idTime: int, rowTime: int, appendOk: bool) returns (id: Option<string>)
      modifies this
      ensures var ok := req.userId.Some? && req.interactionType.Some? && appendOk;
              && (ok ==> id == Some(InteractionId(req.userId.value, idTime)))
              && (ok ==> log == old(log) + [NewRow(req, id.value, rowTime)])
              && (!ok ==> id == None && log == old(log))
    {
      if req.userId.None? || req.interactionType.None? || !appendOk {
        return None;
      }
      var newId := InteractionId(req.userId.value, idTime);
      log := log + [NewRow(req, newId, rowTime)];
      id := Some(newId);
    }
  }
}
