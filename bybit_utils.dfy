/**
 * `BybitUtils`: the position cache that `get_all_open_positions` keeps and
 * rebuilds in place, and the reduce-only order `close_position` would submit.
 * Cache entries are objects: the list the cache returns is the cache itself,
 * and the evaluator writes a position's status into the very entry the cache
 * holds, so a rebuild carries that status forward.
 */
module Bybit {
  import opened Wrappers
  import opened Positions
  import opened Reconcile
  import Decimal
  import Lifecycle

  /** One cache entry. Only the status changes after the entry is created. */
  class Entry {
    const orderId: OrderId
    const data: RawPosition
    const transactionId: TxId
    const params: OrderParams
    const accountNumber: int
    const lastTransactionNumber: int
    var status: string

    constructor (v: EntryView)
      ensures View() == v
    {
      orderId := v.orderId;
      data := v.data;
      transactionId := v.transactionId;
      params := v.params;
      accountNumber := v.accountNumber;
      lastTransactionNumber := v.lastTransactionNumber;
      status := v.status;
    }

    function View(): EntryView
      reads this
    {
      EntryView(orderId, data, transactionId, params, accountNumber, lastTransactionNumber, status)
    }
  }

  /** The contents of a list of entries. */
  function Views(s: seq<Entry>): (vs: seq<EntryView>)
    reads s
    ensures |vs| == |s| && forall i :: 0 <= i < |s| ==> vs[i] == s[i].View()
  {
    if s == [] then [] else [s[0].View()] + Views(s[1..])
  }

  /** The contents of a dictionary of entries. */
  function ViewMap(m: map<OrderId, Entry>): map<OrderId, EntryView>
    reads m.Values
  {
    map k | k in m :: m[k].View()
  }

  /** The cache is considered stale after this many seconds. */
  const CACHE_TTL_SECONDS: real := 60.0

  class PositionCache {
    /** `positions_cache`; `None` and the empty list behave alike and are both the empty sequence here. */
    var cache: seq<Entry>
    /** `last_cache_update`; `None` stands for the initial `datetime.min`. */
    var lastUpdate: Option<real>

    /** Order ids are unique in the cache. */
    ghost predicate Valid()
      reads this
    {
      forall i, j :: 0 <= i < j < |cache| ==> cache[i].orderId != cache[j].orderId
    }

    function OrderIds(): set<OrderId>
      reads this
    {
      set e | e in cache :: e.orderId
    }

    constructor ()
      ensures Valid() && cache == [] && lastUpdate == None
    {
      cache := [];
      lastUpdate := None;
    }

    /** A rebuild is due when the cache is empty, older than the time to live, or a refresh is forced. */
    predicate NeedsRefresh(now: real, force: bool): (r: bool)
      reads this
      ensures force || cache == [] ==> r
      ensures !r ==> lastUpdate.Some? && now <= lastUpdate.value + CACHE_TTL_SECONDS
    {
      cache == [] || lastUpdate.None? || now - lastUpdate.value > CACHE_TTL_SECONDS || force
    }

    /**
     * Returns the cache, rebuilding it first when it is due. `fetched` is what the
     * exchange reports at this moment, `store` the persisted data and `now` the clock.
     * A failed store lookup aborts the rebuild and leaves the cache as it was.
     */
    method GetAllOpenPositions(fetched: seq<RawPosition>, store: Store, now: real, force: bool)
      returns (r: Result<seq<Entry>, Error>)
      requires Valid()
      modifies this
      ensures Valid()
      ensures !old(NeedsRefresh(now, force)) ==>
        cache == old(cache) && lastUpdate == old(lastUpdate) && r == Ok(cache)
      ensures old(NeedsRefresh(now, force)) ==>
        match Merge(old(Views(cache)), fetched, store)
        case Ok(vs) => Views(cache) == vs && lastUpdate == Some(now) && r == Ok(cache)
        case Err(e) => r == Err(e) && cache == old(cache) && lastUpdate == old(lastUpdate)
      ensures forall e :: e in cache ==> e in old(cache) || fresh(e)
      ensures forall e :: e in cache && e.orderId in old(OrderIds()) ==> e in old(cache)
    {
      if !NeedsRefresh(now, force) {
        return Ok(cache);
      }
      var rebuilt := Rebuild(cache, fetched, store);
      if rebuilt.Err? {
        return Err(rebuilt.error);
      }
      cache := rebuilt.value;
      lastUpdate := Some(now);
      r := Ok(cache);
    }
  }

  /**
   * The rebuild itself: the next generation of the entries `prev`, as `Merge`
   * computes it, reusing the objects of `prev` for the ids they hold.
   */
  method Rebuild(prev: seq<Entry>, fetched: seq<RawPosition>, store: Store) returns (r: Result<seq<Entry>, Error>)
    ensures match Merge(Views(prev), fetched, store)
      case Ok(vs) => r.Ok? && Views(r.value) == vs
      case Err(e) => r == Err(e)
    ensures r.Ok? ==> forall i, j :: 0 <= i < j < |r.value| ==> r.value[i].orderId != r.value[j].orderId
    ensures r.Ok? ==> forall e :: e in r.value ==> e in prev || fresh(e)
    ensures r.Ok? ==> forall e, o :: e in r.value && o in prev && e.orderId == o.orderId ==> e in prev
  {
    ghost var prevViews := Views(prev);
    var known := ById(prev);
    ByIdViews(prev);
    r := RebuildEntries(NonZero(fetched), store, known);
    ghost var next := Merge(prevViews, fetched, store);
    if r.Err? {
      assert next == Err(r.error);
      return;
    }
    assert next == Ok(Views(r.value));
    MergeUniqueIds(prevViews, fetched, store, Views(r.value));
  }

  /** `{pos['order_id']: pos for pos in cache}`: of two entries with one id the later wins. */
  function ById(s: seq<Entry>): (m: map<OrderId, Entry>)
    ensures forall k :: k in m ==> m[k].orderId == k && m[k] in s
    ensures forall e :: e in s ==> e.orderId in m
  {
    if s == [] then map[]
    else
      var last := s[|s| - 1];
      assert s == s[..|s| - 1] + [last];
      ById(s[..|s| - 1])[last.orderId := last]
  }

  /** Keyed by id, the entries show the dictionary of their contents. */
  lemma {:induction false} ByIdViews(s: seq<Entry>)
    ensures ViewMap(ById(s)) == ToDict(Views(s))
  {
    if s != [] {
      var init, last := s[..|s| - 1], s[|s| - 1];
      ByIdViews(init);
      var vs := Views(s);
      assert vs[..|vs| - 1] == Views(init);
      assert ToDict(vs) == ToDict(Views(init))[last.orderId := last.View()];
      ViewMapUpdate(ById(init), last.orderId, last);
    }
  }

  lemma ViewMapUpdate(m: map<OrderId, Entry>, k: OrderId, e: Entry)
    ensures ViewMap(m[k := e]) == ViewMap(m)[k := e.View()]
  {
  }

  /** The entries of `objs` show the contents `vs`, key by key. */
  ghost predicate Mirrors(objs: map<OrderId, Entry>, vs: map<OrderId, EntryView>)
    reads objs.Values
  {
    objs.Keys == vs.Keys && forall k :: k in objs ==> objs[k].View() == vs[k]
  }

  lemma MirrorsUpdate(objs: map<OrderId, Entry>, vs: map<OrderId, EntryView>, k: OrderId, e: Entry)
    requires Mirrors(objs, vs)
    ensures Mirrors(objs[k := e], vs[k := e.View()])
  {
  }

  /**
   * What the rebuild loop keeps between iterations: `known` is `cache_dict`
   * (the objects of `known0` and the ones allocated since), `added` and `order`
   * are `new_cache_dict` and its key order, and the objects show the ghost
   * merge state `st`.
   */
  ghost predicate Tracks(known0: map<OrderId, Entry>, known: map<OrderId, Entry>, added: map<OrderId, Entry>,
                         order: seq<OrderId>, st: MergeState)
    reads known.Values, added.Values
  {
    && Mirrors(known, st.known) && Mirrors(added, st.added) && order == st.order
    && (forall k :: k in order ==> k in added)
    && (forall k :: k in added ==> k in known && added[k] == known[k])
    && (forall k :: k in known ==> known[k].orderId == k)
    && (forall k :: k in known0 ==> k in known && known[k] == known0[k])
  }

  /** Before the loop: `cache_dict` is the previous cache and nothing has been added. */
  lemma TracksInit(known0: map<OrderId, Entry>)
    requires forall k :: k in known0 ==> known0[k].orderId == k
    ensures Tracks(known0, known0, map[], [], MergeState(ViewMap(known0), map[], []))
  {
  }

  /** Reusing the known entry `known[k]` keeps the dictionaries in step with `Add`. */
  lemma TracksReuse(known0: map<OrderId, Entry>, known: map<OrderId, Entry>, added: map<OrderId, Entry>,
                    order: seq<OrderId>, st: MergeState, k: OrderId)
    requires Tracks(known0, known, added, order, st) && k in known
    ensures Tracks(known0, known, added[k := known[k]], if k in added then order else order + [k],
                   Add(st, st.known[k]))
  {
    MirrorsUpdate(added, st.added, k, known[k]);
  }

  /** Recording a new entry `e` in both dictionaries keeps them in step with `Add`. */
  lemma TracksNew(known0: map<OrderId, Entry>, known: map<OrderId, Entry>, added: map<OrderId, Entry>,
                  order: seq<OrderId>, st: MergeState, e: Entry)
    requires Tracks(known0, known, added, order, st) && e.orderId !in known
    ensures Tracks(known0, known[e.orderId := e], added[e.orderId := e], order + [e.orderId],
                   Add(st.(known := st.known[e.orderId := e.View()]), e.View()))
  {
    MirrorsUpdate(known, st.known, e.orderId, e);
    MirrorsUpdate(added, st.added, e.orderId, e);
  }

  /** The values of `added` in the order of `order`. */
  function Listed(order: seq<OrderId>, added: map<OrderId, Entry>): seq<Entry>
    requires forall k :: k in order ==> k in added
  {
    seq(|order|, j requires 0 <= j < |order| => added[order[j]])
  }

  lemma ListedViews(order: seq<OrderId>, added: map<OrderId, Entry>, vs: map<OrderId, EntryView>)
    requires forall k :: k in order ==> k in added
    requires Mirrors(added, vs)
    ensures Views(Listed(order, added)) == Values(order, vs)
  {
  }

  /**
   * One iteration of the rebuild loop, for the fresh position `p`: either the
   * lookup error of `Step`, or the updated dictionaries, which show `Step`'s state.
   */
  method Visit(p: RawPosition, store: Store, known: map<OrderId, Entry>, added: map<OrderId, Entry>,
               order: seq<OrderId>, ghost known0: map<OrderId, Entry>, ghost st: MergeState)
    returns (err: Option<Error>, known': map<OrderId, Entry>, added': map<OrderId, Entry>, order': seq<OrderId>,
             ghost made: set<Entry>)
    requires Tracks(known0, known, added, order, st)
    ensures Step(p, store, st).Err? ==> err == Some(Step(p, store, st).error)
    ensures Step(p, store, st).Ok? ==> err.None? && Tracks(known0, known', added', order', Step(p, store, st).value)
    ensures forall k :: k in known ==> k in known' && known'[k] == known[k]
    ensures fresh(made) && forall k :: k in known' && k !in known ==> known'[k] in made
  {
    known', added', order', made := known, added, order, {};
    if p.symbol !in store.recent {
      return Some(MissingTransaction(p.symbol)), known', added', order', made;
    }
    var tx := store.recent[p.symbol];
    var e: Entry;
    if tx.orderId !in known {
      if tx.orderId !in store.orders {
        return Some(MissingOrder(tx.orderId)), known', added', order', made;
      }
      if tx.accountId !in store.accounts {
        return Some(MissingAccount(tx.accountId)), known', added', order', made;
      }
      e := new Entry(NewEntry(p, tx, store.orders[tx.orderId], store.accounts[tx.accountId]));
      TracksNew(known0, known, added, order, st, e);
      known', added', made := known[tx.orderId := e], added[tx.orderId := e], {e};
      order' := order + [tx.orderId];
    } else {
      e := known[tx.orderId];
      if IsEvicted(e.status) {
        return None, known', added', order', made;
      }
      TracksReuse(known0, known, added, order, st, tx.orderId);
      added' := added[tx.orderId := e];
      if tx.orderId !in added {
        order' := order + [tx.orderId];
      }
    }
    err := None;
  }

  /**
   * The loop of a rebuild, over entry objects: from `cache_dict` = `known0`, the
   * final dictionaries `known`, `added` and key order `order`, or the first
   * lookup error. Entries already known are reused as the very same objects;
   * the others are allocated here.
   */
  method RebuildLoop(positions: seq<RawPosition>, store: Store, known0: map<OrderId, Entry>)
    returns (err: Option<Error>, known: map<OrderId, Entry>, added: map<OrderId, Entry>, order: seq<OrderId>,
             ghost st: MergeState, ghost made: set<Entry>)
    requires forall k :: k in known0 ==> known0[k].orderId == k
    ensures err.None? ==> MergeFrom(positions, store, MergeState(ViewMap(known0), map[], [])) == Ok(st)
    ensures err.Some? ==> MergeFrom(positions, store, MergeState(ViewMap(known0), map[], [])) == Err(err.value)
    ensures err.None? ==> Tracks(known0, known, added, order, st)
    ensures fresh(made) && forall k :: k in known && k !in known0 ==> known[k] in made
  {
    known, added, order := known0, map[], [];
    ghost var st0 := MergeState(ViewMap(known0), map[], []);
    st, made := st0, {};
    TracksInit(known0);
    var i := 0;
    while i < |positions|
      invariant 0 <= i <= |positions|
      invariant Tracks(known0, known, added, order, st)
      invariant fresh(made) && forall k :: k in known && k !in known0 ==> known[k] in made
      invariant MergeFrom(positions[i..], store, st) == MergeFrom(positions, store, st0)
    {
      MergeFromCons(positions[i..], store, st);
      assert positions[i..][1..] == positions[i + 1..];
      ghost var madeNow;
      err, known, added, order, madeNow := Visit(positions[i], store, known, added, order, known0, st);
      made := made + madeNow;
      if err.Some? {
        assert MergeFrom(positions, store, st0) == Err(err.value);
        return;
      }
      st := Step(positions[i], store, st).value;
      i := i + 1;
    }
    assert positions[i..] == [];
    assert MergeFrom(positions, store, st0) == Ok(st);
    err := None;
  }

  /** The first iteration of a rebuild loop over `rest`, then the others. */
  lemma MergeFromCons(rest: seq<RawPosition>, store: Store, st: MergeState)
    requires rest != []
    ensures Step(rest[0], store, st).Err? ==> MergeFrom(rest, store, st) == Err(Step(rest[0], store, st).error)
    ensures Step(rest[0], store, st).Ok? ==>
      MergeFrom(rest, store, st) == MergeFrom(rest[1..], store, Step(rest[0], store, st).value)
  {
  }

  /** `list(new_cache_dict.values())` after the rebuild loop, or the lookup error that ended it. */
  method RebuildEntries(positions: seq<RawPosition>, store: Store, known0: map<OrderId, Entry>)
    returns (r: Result<seq<Entry>, Error>)
    requires forall k :: k in known0 ==> known0[k].orderId == k
    ensures match MergeFrom(positions, store, MergeState(ViewMap(known0), map[], []))
      case Ok(st) => r.Ok? && Views(r.value) == Values(st.order, st.added)
      case Err(e) => r == Err(e)
    ensures r.Ok? ==> forall e :: e in r.value ==> e in known0.Values || fresh(e)
    ensures r.Ok? ==> forall e :: e in r.value && e.orderId in known0 ==> e == known0[e.orderId]
  {
    var err, known, added, order, st, made := RebuildLoop(positions, store, known0);
    if err.Some? {
      return Err(err.value);
    }
    r := Ok(Listed(order, added));
    ListedViews(order, added, st.added);
    forall e | e in r.value
      ensures e in known0.Values || fresh(e)
      ensures e.orderId in known0 ==> e == known0[e.orderId]
    {
      var j :| 0 <= j < |order| && e == added[order[j]];
    }
  }

  /** `get_position_for_symbol`: the first position in the exchange's listing with the symbol. */
  function FindBySymbol(positions: seq<RawPosition>, symbol: string): (r: Option<RawPosition>)
    ensures r.None? <==> forall p :: p in positions ==> p.symbol != symbol
    ensures r.Some? ==> exists i :: 0 <= i < |positions| && positions[i] == r.value && r.value.symbol == symbol
                          && forall j :: 0 <= j < i ==> positions[j].symbol != symbol
  {
    if positions == [] then None
    else if positions[0].symbol == symbol then Some(positions[0])
    else
      var r := FindBySymbol(positions[1..], symbol);
      assert r.Some? ==> exists i :: 1 <= i < |positions| && positions[i] == r.value && r.value.symbol == symbol
                          && forall j :: 0 <= j < i ==> positions[j].symbol != symbol by {
        if r.Some? {
          var i :| 0 <= i < |positions[1..]| && positions[1..][i] == r.value
            && forall j :: 0 <= j < i ==> positions[1..][j].symbol != symbol;
          assert positions[i + 1] == r.value;
        }
      }
      r
  }

  /** The order the exchange would receive. */
  datatype Order = Order(
    category: string, symbol: string, side: string, orderType: string,
    qty: real, reduceOnly: bool, orderLinkId: string)

  /** The side of the closing order: "Sell" for a "Buy" position, "Buy" for anything else. */
  function ClosingSide(side: string): (r: string)
    ensures r == "Buy" || r == "Sell"
    ensures r == "Sell" <==> side == "Buy"
    ensures side == "Buy" || side == "Sell" ==> r != side
  {
    if side == "Buy" then "Sell" else "Buy"
  }

  /** The client order id `{account}_{symbol}_{transaction number}_{status}_safety`. */
  function LinkId(accountNumber: int, symbol: string, transactionNumber: int, status: string): (r: string)
    ensures Decimal.IntToString(accountNumber) + "_" + symbol + "_" <= r
    ensures |r| >= 7 && r[|r| - 7..] == "_safety"
  {
    Decimal.IntToString(accountNumber) + "_" + symbol + "_" + Decimal.IntToString(transactionNumber)
      + "_" + status + "_safety"
  }

  /**
   * `close_position`: nothing is submitted when the exchange no longer lists a
   * position for the symbol or the transaction's closing flag is set; otherwise a
   * reduce-only market order for the listed size, on the opposite side.
   */
  function ClosePosition(position: Entry, held: seq<RawPosition>, closing: set<TxId>,
                         accountNumber: int, lastTransactionNumber: int, positionStatus: string): (r: Option<Order>)
    ensures r.Some? <==> FindBySymbol(held, position.data.symbol).Some? && position.transactionId !in closing
    ensures r.Some? ==>
      var current := FindBySymbol(held, position.data.symbol).value;
      && r.value.symbol == position.data.symbol == current.symbol
      && r.value.orderType == "Market" && r.value.reduceOnly
      && r.value.qty == current.size
      && r.value.side in {"Buy", "Sell"} && r.value.side != current.side
      && (current.side == "Buy" <==> r.value.side == "Sell")
      && r.value.orderLinkId == LinkId(accountNumber, position.data.symbol, lastTransactionNumber, positionStatus)
  {
    var symbol := position.data.symbol;
    var current := FindBySymbol(held, symbol);
    if current.Some? && position.transactionId !in closing then
      Some(Order("linear", symbol, ClosingSide(current.value.side), "Market", current.value.size, true,
                 LinkId(accountNumber, symbol, lastTransactionNumber, positionStatus)))
    else
      None
  }

  /** A short position is closed by buying and a long one reported as "Buy" by selling. */
  lemma ClosingSideOpposesDirection(side: string)
    requires side == "Buy" || side == "Sell"
    ensures Lifecycle.DirectionOf(side) == Lifecycle.Short <==> ClosingSide(side) == "Buy"
  {
  }

  lemma SplitAtUnderscore(a: string, b: string, c: string, d: string)
    requires '_' !in a && '_' !in c
    requires a + "_" + b == c + "_" + d
    ensures a == c && b == d
  {
    var s := a + "_" + b;
    assert (a + "_" + b)[|a|] == '_';
    assert (c + "_" + d)[|c|] == '_';
    assert a == s[..|a|] == c;
    assert b == s[|a| + 1..] == d;
  }

  /**
   * Link ids for the same symbol and status differ whenever the account number
   * or the transaction number differ, so the exchange can tell two closing
   * requests apart and recognise a retried one.
   */
  lemma LinkIdInjective(a1: int, a2: int, symbol: string, n1: int, n2: int, status: string)
    requires LinkId(a1, symbol, n1, status) == LinkId(a2, symbol, n2, status)
    ensures a1 == a2 && n1 == n2
  {
    var s1, s2 := Decimal.IntToString(a1), Decimal.IntToString(a2);
    var m1, m2 := Decimal.IntToString(n1), Decimal.IntToString(n2);
    var rest := status + "_safety";
    LinkIdShape(a1, symbol, n1, status);
    LinkIdShape(a2, symbol, n2, status);
    SplitAtUnderscore(s1, symbol + "_" + (m1 + "_" + rest), s2, symbol + "_" + (m2 + "_" + rest));
    Decimal.IntToStringInjective(a1, a2);
    DropPrefix(symbol + "_", m1 + "_" + rest, m2 + "_" + rest);
    SplitAtUnderscore(m1, rest, m2, rest);
    Decimal.IntToStringInjective(n1, n2);
  }

  /** The link id read as its account number, then the rest. */
  lemma LinkIdShape(a: int, symbol: string, n: int, status: string)
    ensures LinkId(a, symbol, n, status)
      == Decimal.IntToString(a) + "_" + ((symbol + "_") + (Decimal.IntToString(n) + "_" + (status + "_safety")))
  {
  }

  lemma DropPrefix(p: string, x: string, y: string)
    requires p + x == p + y
    ensures x == y
  {
    assert x == (p + x)[|p|..];
  }
}
