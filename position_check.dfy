/**
 * `check_and_close_position`: one evaluation of one cached position against the
 * current price. The status is written into the cache entry itself; when the
 * position would close, the closing order is built and the cache is refreshed
 * at once, so the entry with its closed status is what the rebuild sees.
 */
module PositionCheck {
  import opened Wrappers
  import opened Positions
  import opened Reconcile
  import opened Lifecycle
  import opened Bybit

  /** The price feed's reading: the sentinel string "NaN" or a number. */
  datatype PriceReading = NotANumber | Price(value: real)

  /** The exchange still lists a non-zero position that the store maps to `position`'s order. */
  ghost predicate StillListed(position: Entry, fetched: seq<RawPosition>, store: Store) {
    exists p :: p in fetched && p.size != 0.0 && p.symbol in store.recent && store.recent[p.symbol].orderId == position.orderId
  }

  /**
   * When the new cache shows the contents of `position` and reuses the objects of
   * the old cache for the ids it held, the entry shown is `position` itself.
   */
  lemma SameObjectKept(before: seq<Entry>, after: seq<Entry>, position: Entry)
    requires forall i, j :: 0 <= i < j < |before| ==> before[i].orderId != before[j].orderId
    requires position in before && position.View() in Views(after)
    requires forall e :: e in after && e.orderId in (set o | o in before :: o.orderId) ==> e in before
    ensures position in after
  {
    var i :| 0 <= i < |after| && Views(after)[i] == position.View();
    var e := after[i];
    assert e.orderId in (set o | o in before :: o.orderId);
    var a :| 0 <= a < |before| && before[a] == e;
    var b :| 0 <= b < |before| && before[b] == position;
  }

  /** The status table applied to `position` in place: its new status, and whether it closes. */
  method Reevaluate(position: Entry, price: real) returns (closing: bool)
    modifies position
    ensures var t := Evaluate(old(position.status), DirectionOf(position.data.side), price, position.params);
      position.status == t.status && closing == t.wouldClose
    ensures closing ==> IsClosed(position.status)
  {
    var t := Evaluate(position.status, DirectionOf(position.data.side), price, position.params);
    position.status := t.status;
    closing := t.wouldClose;
  }

  /**
   * The closing half of an evaluation, once `position` carries its closed status:
   * the order `close_position` would submit, then a forced refresh of the cache.
   */
  method CloseAndRefresh(position: Entry, bybit: PositionCache, store: Store,
                         held: seq<RawPosition>, fetched: seq<RawPosition>, now: real)
    returns (order: Option<Order>, refreshError: Option<Error>)
    requires bybit.Valid() && IsClosed(position.status)
    modifies bybit
    ensures bybit.Valid()
    ensures order == ClosePosition(position, held, store.closing, position.accountNumber,
                                   position.lastTransactionNumber + 1, position.status)
    ensures match Merge(old(Views(bybit.cache)), fetched, store)
      case Ok(vs) => refreshError.None? && Views(bybit.cache) == vs && bybit.lastUpdate == Some(now)
      case Err(e) => refreshError == Some(e) && bybit.cache == old(bybit.cache) && bybit.lastUpdate == old(bybit.lastUpdate)
    ensures refreshError.None? && position in old(bybit.cache) && StillListed(position, fetched, store) ==>
      position in bybit.cache
  {
    order := ClosePosition(position, held, store.closing, position.accountNumber,
                           position.lastTransactionNumber + 1, position.status);
    ghost var before := Views(bybit.cache);
    var refreshed := bybit.GetAllOpenPositions(fetched, store, now, true);
    refreshError := None;
    if refreshed.Err? {
      refreshError := Some(refreshed.error);
    } else if position in old(bybit.cache) && StillListed(position, fetched, store) {
      var p :| p in fetched && p.size != 0.0 && p.symbol in store.recent && store.recent[p.symbol].orderId == position.orderId;
      ClosedEntryCarriedForward(before, fetched, store, Views(bybit.cache), position.View(), p);
      SameObjectKept(old(bybit.cache), bybit.cache, position);
    }
  }

  /**
   * Evaluates `position` at `currentPrice`. `held` is the exchange's listing that
   * `close_position` consults, `fetched` the listing the forced refresh reads,
   * `store` the persisted data and `now` the clock at the refresh. Returns whether
   * the position would close, the order `close_position` would submit, and the
   * lookup error that aborted the refresh, if any.
   */
  method CheckAndClosePosition(position: Entry, currentPrice: PriceReading, bybit: PositionCache, store: Store,
                               held: seq<RawPosition>, fetched: seq<RawPosition>, now: real)
    returns (closing: bool, order: Option<Order>, refreshError: Option<Error>)
    requires bybit.Valid()
    modifies position, bybit
    ensures bybit.Valid()
    ensures currentPrice.NotANumber? || position.data.size == 0.0 ==>
      !closing && position.status == old(position.status)
    ensures currentPrice.Price? && position.data.size != 0.0 ==>
      var t := Evaluate(old(position.status), DirectionOf(position.data.side), currentPrice.value, position.params);
      position.status == t.status && closing == t.wouldClose
    ensures !closing ==> order.None? && refreshError.None? && unchanged(bybit)
    ensures closing ==> order == ClosePosition(position, held, store.closing, position.accountNumber,
                                               position.lastTransactionNumber + 1, position.status)
    ensures closing ==>
      match Merge(Views(old(bybit.cache)), fetched, store)
      case Ok(vs) => refreshError.None? && Views(bybit.cache) == vs && bybit.lastUpdate == Some(now)
      case Err(e) => refreshError == Some(e) && bybit.cache == old(bybit.cache) && bybit.lastUpdate == old(bybit.lastUpdate)
    ensures closing && refreshError.None? && position in old(bybit.cache) && StillListed(position, fetched, store) ==>
      position in bybit.cache && IsClosed(position.status)
  {
    closing, order, refreshError := false, None, None;
    if currentPrice.Price? && position.data.size != 0.0 {
      closing := Reevaluate(position, currentPrice.value);
      if closing {
        ghost var before := Views(bybit.cache);
        assert bybit.cache == old(bybit.cache);
        order, refreshError := CloseAndRefresh(position, bybit, store, held, fetched, now);
        assert Views(old(bybit.cache)) == before;
      }
    }
  }
}
