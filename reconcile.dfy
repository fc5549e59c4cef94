/**
 * The cache rebuild of `BybitUtils.get_all_open_positions`, stated on values:
 * the previous generation of cache entries and a fresh fetch from the exchange
 * give the next generation, or the error a failed store lookup raises.
 * The class that performs the rebuild in place, over entry objects, is
 * proved against `Merge`.
 */
module Reconcile {
  import opened Wrappers
  import opened Positions

  /** The contents of one cache entry: the exchange record enriched at first insertion. */
  datatype EntryView = EntryView(
    orderId: OrderId,
    data: RawPosition,
    transactionId: TxId,
    params: OrderParams,
    accountNumber: int,
    lastTransactionNumber: int,
    status: string)

  /** The positions of a fetch that the cache tracks: those of non-zero size, in order. */
  function NonZero(positions: seq<RawPosition>): (r: seq<RawPosition>)
    ensures forall p :: p in r <==> p in positions && p.size != 0.0
    ensures |r| <= |positions|
  {
    if positions == [] then []
    else (if positions[0].size != 0.0 then [positions[0]] else []) + NonZero(positions[1..])
  }

  /** A single position is kept exactly when its size is non-zero. */
  lemma NonZeroSingle(p: RawPosition)
    ensures NonZero([p]) == (if p.size != 0.0 then [p] else [])
  {
  }

  lemma TailOfAppend<T>(a: seq<T>, b: seq<T>)
    requires a != []
    ensures (a + b)[0] == a[0] && (a + b)[1..] == a[1..] + b
  {
  }

  /** The filter keeps the order of the fetch: filtering a concatenation filters each part. */
  lemma {:induction false} NonZeroAppend(a: seq<RawPosition>, b: seq<RawPosition>)
    ensures NonZero(a + b) == NonZero(a) + NonZero(b)
  {
    if a == [] {
      assert a + b == b;
    } else {
      var head := if a[0].size != 0.0 then [a[0]] else [];
      NonZeroAppend(a[1..], b);
      calc {
        NonZero(a + b);
        { TailOfAppend(a, b); }
        head + NonZero(a[1..] + b);
        head + (NonZero(a[1..]) + NonZero(b));
        { assert head + (NonZero(a[1..]) + NonZero(b)) == (head + NonZero(a[1..])) + NonZero(b); }
        NonZero(a) + NonZero(b);
      }
    }
  }

  function Ids(s: seq<EntryView>): set<OrderId> {
    set v | v in s :: v.orderId
  }

  predicate UniqueIds(s: seq<EntryView>) {
    forall i, j :: 0 <= i < j < |s| ==> s[i].orderId != s[j].orderId
  }

  /** The dictionary of a generation keyed by order id; of two entries with one id the later wins. */
  function ToDict(s: seq<EntryView>): (m: map<OrderId, EntryView>)
    ensures m.Keys == Ids(s)
    ensures forall k :: k in m ==> m[k].orderId == k && m[k] in s
  {
    if s == [] then map[]
    else
      var last := s[|s| - 1];
      assert s == s[..|s| - 1] + [last];
      ToDict(s[..|s| - 1])[last.orderId := last]
  }

  /** With unique ids, each entry is found in the dictionary under its own id. */
  lemma {:induction false} ToDictUnique(s: seq<EntryView>)
    requires UniqueIds(s)
    ensures forall i :: 0 <= i < |s| ==> ToDict(s)[s[i].orderId] == s[i]
  {
    if s != [] {
      var init := s[..|s| - 1];
      ToDictUnique(init);
      forall i | 0 <= i < |s|
        ensures ToDict(s)[s[i].orderId] == s[i]
      {
        if i < |s| - 1 {
          assert s[i] == init[i];
        }
      }
    }
  }

  /** The loop state of a rebuild: `cache_dict`, `new_cache_dict` and the insertion order of the latter. */
  datatype MergeState = MergeState(known: map<OrderId, EntryView>, added: map<OrderId, EntryView>, order: seq<OrderId>)

  ghost predicate Wf(st: MergeState) {
    forall k :: k in st.order ==> k in st.added
  }

  /** `list(new_cache_dict.values())`: the added entries in insertion order. */
  function Values(order: seq<OrderId>, added: map<OrderId, EntryView>): seq<EntryView>
    requires forall k :: k in order ==> k in added
  {
    seq(|order|, j requires 0 <= j < |order| => added[order[j]])
  }

  /** The entry created for a position seen for the first time. */
  function NewEntry(p: RawPosition, tx: Transaction, params: OrderParams, account: Account): EntryView {
    EntryView(tx.orderId, p, tx.id, params, account.accountNumber, account.lastTransactionNumber, OPEN)
  }

  /** `new_cache_dict[e.order_id] = e`: a known key keeps its place, a new key goes last. */
  function Add(st: MergeState, e: EntryView): MergeState {
    st.(added := st.added[e.orderId := e],
        order := if e.orderId in st.added then st.order else st.order + [e.orderId])
  }

  /** Some store lookup for `p` has no answer: its transaction, or that transaction's order or account. */
  predicate LookupFails(p: RawPosition, store: Store) {
    p.symbol !in store.recent
    || store.recent[p.symbol].orderId !in store.orders
    || store.recent[p.symbol].accountId !in store.accounts
  }

  /** One iteration of the rebuild loop, for the fresh position `p`. */
  function Step(p: RawPosition, store: Store, st: MergeState): (r: Result<MergeState, Error>)
    ensures Wf(st) && r.Ok? ==> Wf(r.value)
    ensures r.Err? ==> LookupFails(p, store)
    ensures r.Err? ==> (r.error.MissingTransaction? <==> p.symbol !in store.recent)
  {
    if p.symbol !in store.recent then Err(MissingTransaction(p.symbol))
    else
      var tx := store.recent[p.symbol];
      if tx.orderId !in st.known then
        if tx.orderId !in store.orders then Err(MissingOrder(tx.orderId))
        else if tx.accountId !in store.accounts then Err(MissingAccount(tx.accountId))
        else
          var e := NewEntry(p, tx, store.orders[tx.orderId], store.accounts[tx.accountId]);
          Ok(Add(st.(known := st.known[tx.orderId := e]), e))
      else if IsEvicted(st.known[tx.orderId].status) then Ok(st)
      else Ok(Add(st, st.known[tx.orderId]))
  }

  /** The rest of the rebuild loop from state `st`. */
  function MergeFrom(rest: seq<RawPosition>, store: Store, st: MergeState): (r: Result<MergeState, Error>)
    ensures Wf(st) && r.Ok? ==> Wf(r.value)
    ensures r.Err? ==> exists p :: p in rest && LookupFails(p, store)
    decreases |rest|
  {
    if rest == [] then Ok(st)
    else
      match Step(rest[0], store, st)
      case Err(e) => Err(e)
      case Ok(next) => MergeFrom(rest[1..], store, next)
  }

  /** The next generation of the cache from the previous one and a fetch, or the lookup error. */
  function Merge(prev: seq<EntryView>, fetched: seq<RawPosition>, store: Store): (r: Result<seq<EntryView>, Error>)
    ensures r.Err? ==> exists p :: p in fetched && p.size != 0.0 && LookupFails(p, store)
    ensures NonZero(fetched) == [] ==> r == Ok([])
  {
    var init := MergeState(ToDict(prev), map[], []);
    match MergeFrom(NonZero(fetched), store, init)
    case Err(e) => Err(e)
    case Ok(st) =>
      assert |Values(st.order, st.added)| == |st.order|;
      Ok(Values(st.order, st.added))
  }

  // ----- Properties of a rebuild -----

  /** The order ids the fresh positions map to. */
  function FreshIds(positions: seq<RawPosition>, store: Store): set<OrderId> {
    set p | p in positions && p.symbol in store.recent :: store.recent[p.symbol].orderId
  }

  /** `e` is exactly the entry a rebuild creates from its own exchange record and the store. */
  ghost predicate EnrichedFrom(store: Store, e: EntryView) {
    && e.data.symbol in store.recent
    && var tx := store.recent[e.data.symbol];
    && tx.orderId == e.orderId
    && tx.orderId in store.orders
    && tx.accountId in store.accounts
    && e == NewEntry(e.data, tx, store.orders[tx.orderId], store.accounts[tx.accountId])
  }

  /** The insertion order lists each added key once, and only added keys. */
  ghost predicate InvOrder(st: MergeState) {
    && Wf(st)
    && (forall i, j :: 0 <= i < j < |st.order| ==> st.order[i] != st.order[j])
    && (forall k :: k in st.added ==> k in st.order)
  }

  /** Added entries are the known ones, none evicted, each for an order id of the fresh positions. */
  ghost predicate InvAdded(all: seq<RawPosition>, store: Store, st: MergeState) {
    forall k :: k in st.added ==>
      && k in st.known && st.added[k] == st.known[k]
      && !IsEvicted(st.added[k].status)
      && k in FreshIds(all, store)
  }

  /** The known entries extend the previous generation and are keyed by their own ids. */
  ghost predicate InvKnown(prev: map<OrderId, EntryView>, st: MergeState) {
    && (forall k :: k in st.known ==> st.known[k].orderId == k)
    && (forall k :: k in prev ==> k in st.known && st.known[k] == prev[k])
  }

  /** A known entry the previous generation did not hold was created by this rebuild and added. */
  ghost predicate InvNew(prev: map<OrderId, EntryView>, all: seq<RawPosition>, store: Store, st: MergeState) {
    forall k :: k in st.known && k !in prev ==>
      && k in st.added
      && st.known[k].status == OPEN
      && st.known[k].data in all
      && EnrichedFrom(store, st.known[k])
  }

  /** What holds of the loop state at every iteration of a rebuild that started from `prev`. */
  ghost predicate Inv(prev: map<OrderId, EntryView>, all: seq<RawPosition>, store: Store, st: MergeState) {
    InvOrder(st) && InvAdded(all, store, st) && InvKnown(prev, st) && InvNew(prev, all, store, st)
  }

  lemma InvInit(prev: seq<EntryView>, all: seq<RawPosition>, store: Store)
    ensures Inv(ToDict(prev), all, store, MergeState(ToDict(prev), map[], []))
  {
  }

  /** One iteration keeps the invariant, changes no entry already present, and records `p`. */
  lemma StepKeepsInv(p: RawPosition, prev: map<OrderId, EntryView>, all: seq<RawPosition>, store: Store, st: MergeState)
    requires Inv(prev, all, store, st) && p in all
    requires Step(p, store, st).Ok?
    ensures var next := Step(p, store, st).value;
      && Inv(prev, all, store, next)
      && (forall k :: k in st.known ==> k in next.known && next.known[k] == st.known[k])
      && (forall k :: k in st.added ==> k in next.added && next.added[k] == st.added[k])
      && var k := store.recent[p.symbol].orderId;
         k in next.known && (k in next.added || (k in prev && IsEvicted(prev[k].status)))
  {
    var tx := store.recent[p.symbol];
    assert tx.orderId in FreshIds(all, store);
    if tx.orderId !in st.known {
      StepNewKeepsInv(p, prev, all, store, st);
    } else if !IsEvicted(st.known[tx.orderId].status) {
      StepReuseKeepsInv(p, prev, all, store, st);
    }
  }

  /** The state after a position whose order id is not yet known. */
  lemma StepNewShape(p: RawPosition, store: Store, st: MergeState) returns (next: MergeState)
    requires Step(p, store, st).Ok?
    requires p.symbol in store.recent && store.recent[p.symbol].orderId !in st.known
    requires store.recent[p.symbol].orderId !in st.added
    ensures var tx := store.recent[p.symbol];
      var e := NewEntry(p, tx, store.orders[tx.orderId], store.accounts[tx.accountId]);
      && Step(p, store, st) == Ok(next)
      && next == MergeState(st.known[tx.orderId := e], st.added[tx.orderId := e], st.order + [tx.orderId])
  {
    next := Step(p, store, st).value;
  }

  lemma StepNewKeepsInv(p: RawPosition, prev: map<OrderId, EntryView>, all: seq<RawPosition>, store: Store, st: MergeState)
    requires Inv(prev, all, store, st) && p in all
    requires Step(p, store, st).Ok?
    requires p.symbol in store.recent && store.recent[p.symbol].orderId !in st.known
    ensures var next := Step(p, store, st).value;
      && Inv(prev, all, store, next)
      && (forall k :: k in st.known ==> k in next.known && next.known[k] == st.known[k])
      && (forall k :: k in st.added ==> k in next.added && next.added[k] == st.added[k])
      && var k := store.recent[p.symbol].orderId;
         k in next.known && k in next.added
  {
    var tx := store.recent[p.symbol];
    var k := tx.orderId;
    var e := NewEntry(p, tx, store.orders[k], store.accounts[tx.accountId]);
    assert k !in st.added && k !in prev;
    var next := StepNewShape(p, store, st);
    AppendKeepsOrder(st.(known := st.known[k := e]), k, e);
    assert k in FreshIds(all, store);
    NewKeepsAdded(all, store, st, k, e);
    assert EnrichedFrom(store, e);
    NewKeepsKnown(prev, all, store, st, k, e);
  }

  lemma AppendKeepsOrder(st: MergeState, k: OrderId, e: EntryView)
    requires InvOrder(st) && k !in st.added
    ensures InvOrder(MergeState(st.known, st.added[k := e], st.order + [k]))
  {
  }

  lemma NewKeepsAdded(all: seq<RawPosition>, store: Store, st: MergeState, k: OrderId, e: EntryView)
    requires InvAdded(all, store, st) && k !in st.known
    requires e.status == OPEN && k in FreshIds(all, store)
    ensures InvAdded(all, store, MergeState(st.known[k := e], st.added[k := e], st.order + [k]))
  {
  }

  lemma NewKeepsKnown(prev: map<OrderId, EntryView>, all: seq<RawPosition>, store: Store, st: MergeState, k: OrderId, e: EntryView)
    requires InvKnown(prev, st) && InvNew(prev, all, store, st) && k !in st.known
    requires e.orderId == k && e.status == OPEN && e.data in all && EnrichedFrom(store, e)
    ensures InvKnown(prev, MergeState(st.known[k := e], st.added[k := e], st.order + [k]))
    ensures InvNew(prev, all, store, MergeState(st.known[k := e], st.added[k := e], st.order + [k]))
  {
  }

  lemma StepReuseKeepsInv(p: RawPosition, prev: map<OrderId, EntryView>, all: seq<RawPosition>, store: Store, st: MergeState)
    requires Inv(prev, all, store, st) && p in all
    requires p.symbol in store.recent && store.recent[p.symbol].orderId in st.known
    requires !IsEvicted(st.known[store.recent[p.symbol].orderId].status)
    ensures Step(p, store, st).Ok?
    ensures var next := Step(p, store, st).value;
      && Inv(prev, all, store, next)
      && next.known == st.known
      && (forall k :: k in st.added ==> k in next.added && next.added[k] == st.added[k])
      && store.recent[p.symbol].orderId in next.added
  {
    var k := store.recent[p.symbol].orderId;
    var v := st.known[k];
    var next := Step(p, store, st).value;
    assert next == Add(st, v);
    if k in st.added {
      assert st.added[k := v] == st.added;
      assert next == st;
    } else {
      assert next == MergeState(st.known, st.added[k := v], st.order + [k]);
      AppendKeepsOrder(st, k, v);
      assert k in FreshIds(all, store);
      ReuseKeepsAdded(all, store, st, k);
      ReuseKeepsNew(prev, all, store, st, k);
    }
  }

  lemma ReuseKeepsAdded(all: seq<RawPosition>, store: Store, st: MergeState, k: OrderId)
    requires InvAdded(all, store, st) && k in st.known
    requires !IsEvicted(st.known[k].status) && k in FreshIds(all, store)
    ensures InvAdded(all, store, MergeState(st.known, st.added[k := st.known[k]], st.order + [k]))
  {
  }

  lemma ReuseKeepsNew(prev: map<OrderId, EntryView>, all: seq<RawPosition>, store: Store, st: MergeState, k: OrderId)
    requires InvNew(prev, all, store, st) && k in st.known
    ensures InvNew(prev, all, store, MergeState(st.known, st.added[k := st.known[k]], st.order + [k]))
  {
  }

  /**
   * The loop invariant holds to the end of a rebuild; the dictionaries only grow
   * without changing an entry; and every fresh position's order id ends up in the
   * new generation unless the previous generation held it with an evicted status.
   */
  lemma {:induction false} MergeFromFacts(rest: seq<RawPosition>, prev: map<OrderId, EntryView>, all: seq<RawPosition>,
                                          store: Store, st: MergeState, fin: MergeState)
    requires Inv(prev, all, store, st)
    requires forall p :: p in rest ==> p in all
    requires MergeFrom(rest, store, st) == Ok(fin)
    ensures Inv(prev, all, store, fin)
    ensures forall k :: k in st.known ==> k in fin.known && fin.known[k] == st.known[k]
    ensures forall k :: k in st.added ==> k in fin.added && fin.added[k] == st.added[k]
    ensures forall p :: p in rest ==> (p.symbol in store.recent &&
      var k := store.recent[p.symbol].orderId;
      k in fin.known && (k in fin.added || (k in prev && IsEvicted(prev[k].status))))
    decreases |rest|
  {
    if rest != [] {
      var next := Step(rest[0], store, st).value;
      StepKeepsInv(rest[0], prev, all, store, st);
      MergeFromFacts(rest[1..], prev, all, store, next, fin);
      forall p | p in rest
        ensures p.symbol in store.recent &&
          var k := store.recent[p.symbol].orderId;
          k in fin.known && (k in fin.added || (k in prev && IsEvicted(prev[k].status)))
      {
        if p != rest[0] {
          assert p in rest[1..];
        }
      }
    }
  }

  /** The final state of a successful rebuild together with all the facts above. */
  lemma MergeOutcome(prev: seq<EntryView>, fetched: seq<RawPosition>, store: Store, vs: seq<EntryView>)
    returns (fin: MergeState)
    requires Merge(prev, fetched, store) == Ok(vs)
    ensures MergeFrom(NonZero(fetched), store, MergeState(ToDict(prev), map[], [])) == Ok(fin)
    ensures Inv(ToDict(prev), NonZero(fetched), store, fin)
    ensures vs == Values(fin.order, fin.added)
    ensures forall p :: p in NonZero(fetched) ==> (p.symbol in store.recent &&
      var k := store.recent[p.symbol].orderId;
      k in fin.known && (k in fin.added || (k in ToDict(prev) && IsEvicted(ToDict(prev)[k].status))))
  {
    var all := NonZero(fetched);
    var init := MergeState(ToDict(prev), map[], []);
    fin := MergeFrom(all, store, init).value;
    InvInit(prev, all, store);
    MergeFromFacts(all, ToDict(prev), all, store, init, fin);
  }

  /** After a rebuild, order ids are unique in the cache. */
  lemma MergeUniqueIds(prev: seq<EntryView>, fetched: seq<RawPosition>, store: Store, vs: seq<EntryView>)
    requires Merge(prev, fetched, store) == Ok(vs)
    ensures UniqueIds(vs)
  {
    var fin := MergeOutcome(prev, fetched, store, vs);
  }

  /**
   * Every entry of the new generation belongs to an order id of the fresh,
   * non-zero positions: an entry of the previous generation whose order id no
   * longer appears is dropped.
   */
  lemma MergeOnlyFresh(prev: seq<EntryView>, fetched: seq<RawPosition>, store: Store, vs: seq<EntryView>)
    requires Merge(prev, fetched, store) == Ok(vs)
    ensures forall v :: v in vs ==> v.orderId in FreshIds(NonZero(fetched), store)
    ensures forall v :: v in prev && v.orderId !in FreshIds(NonZero(fetched), store) ==> v.orderId !in Ids(vs)
  {
    var fin := MergeOutcome(prev, fetched, store, vs);
  }

  /**
   * An entry whose order id the previous generation did not hold is new: status
   * OPEN, its exchange record a fresh non-zero position, and its transaction,
   * parameters and account numbers those of the store lookups.
   */
  lemma MergeNewEntries(prev: seq<EntryView>, fetched: seq<RawPosition>, store: Store, vs: seq<EntryView>)
    requires Merge(prev, fetched, store) == Ok(vs)
    ensures forall v :: v in vs && v.orderId !in Ids(prev) ==>
      && v.status == OPEN
      && v.data in fetched && v.data.size != 0.0
      && EnrichedFrom(store, v)
  {
    var fin := MergeOutcome(prev, fetched, store, vs);
  }

  /**
   * An entry whose order id the previous generation held is that previous entry,
   * unchanged (status and parameters are carried, not fetched again), and its
   * status is not an evicted one.
   */
  lemma MergeReusesVerbatim(prev: seq<EntryView>, fetched: seq<RawPosition>, store: Store, vs: seq<EntryView>)
    requires Merge(prev, fetched, store) == Ok(vs)
    ensures forall v :: v in vs && v.orderId in Ids(prev) ==>
      v == ToDict(prev)[v.orderId] && !IsEvicted(v.status)
  {
    var fin := MergeOutcome(prev, fetched, store, vs);
  }

  /** The ids of the listed values are the listed keys, when each value is keyed by its own id. */
  lemma ValuesIds(order: seq<OrderId>, added: map<OrderId, EntryView>)
    requires forall k :: k in order ==> k in added && added[k].orderId == k
    ensures Ids(Values(order, added)) == set k | k in order
  {
    var vs := Values(order, added);
    forall k | k in order ensures k in Ids(vs) {
      var j :| 0 <= j < |order| && order[j] == k;
      assert vs[j] in vs;
    }
  }

  /**
   * Every fresh non-zero position is represented in the new generation, except
   * one whose previous entry has an evicted status: that one is dropped.
   */
  lemma MergeComplete(prev: seq<EntryView>, fetched: seq<RawPosition>, store: Store, vs: seq<EntryView>)
    requires Merge(prev, fetched, store) == Ok(vs)
    ensures forall p :: p in fetched && p.size != 0.0 ==>
      && p.symbol in store.recent
      && var k := store.recent[p.symbol].orderId;
      && (k in Ids(vs) <==> !(k in Ids(prev) && IsEvicted(ToDict(prev)[k].status)))
  {
    var fin := MergeOutcome(prev, fetched, store, vs);
    ValuesIds(fin.order, fin.added);
    forall p | p in fetched && p.size != 0.0
      ensures p.symbol in store.recent &&
        var k := store.recent[p.symbol].orderId;
        (k in Ids(vs) <==> !(k in Ids(prev) && IsEvicted(ToDict(prev)[k].status)))
    {
      assert p in NonZero(fetched);
    }
  }

  /** A reused entry whose status is one of the evicted ones is left out of the new generation. */
  lemma MergeEvicts(prev: seq<EntryView>, fetched: seq<RawPosition>, store: Store, vs: seq<EntryView>)
    requires Merge(prev, fetched, store) == Ok(vs)
    ensures forall k :: k in Ids(prev) && IsEvicted(ToDict(prev)[k].status) ==> k !in Ids(vs)
  {
    MergeReusesVerbatim(prev, fetched, store, vs);
  }

  /**
   * The evaluator's closed statuses are not among the evicted ones, so an entry
   * closed by the evaluator (CLOSED_STOPLOSS among them) is carried into the next
   * generation, unchanged, for as long as the exchange still reports its position.
   */
  lemma ClosedEntryCarriedForward(prev: seq<EntryView>, fetched: seq<RawPosition>, store: Store,
                                  vs: seq<EntryView>, e: EntryView, p: RawPosition)
    requires Merge(prev, fetched, store) == Ok(vs)
    requires UniqueIds(prev) && e in prev && IsClosed(e.status)
    requires p in fetched && p.size != 0.0 && p.symbol in store.recent
    requires store.recent[p.symbol].orderId == e.orderId
    ensures e in vs
  {
    ToDictUnique(prev);
    MergeComplete(prev, fetched, store, vs);
    MergeReusesVerbatim(prev, fetched, store, vs);
    assert e.orderId in Ids(vs);
    var v :| v in vs && v.orderId == e.orderId;
    var i :| 0 <= i < |prev| && prev[i] == e;
    assert v == e;
  }

  /** The first position of `positions` that the store maps to the order id `k`. */
  function FirstFor(positions: seq<RawPosition>, store: Store, k: OrderId): Option<RawPosition> {
    if positions == [] then None
    else if positions[0].symbol in store.recent && store.recent[positions[0].symbol].orderId == k then Some(positions[0])
    else FirstFor(positions[1..], store, k)
  }

  /**
   * Over the rest of a rebuild, an order id first met in `rest` gets the entry
   * built from the first position of `rest` that maps to it; later positions with
   * the same id find that entry in `cache_dict` and reuse it.
   */
  lemma {:induction false} MergeFromFirst(rest: seq<RawPosition>, store: Store, st: MergeState, fin: MergeState)
    requires MergeFrom(rest, store, st) == Ok(fin)
    ensures forall k :: k in st.known ==> k in fin.known && fin.known[k] == st.known[k]
    ensures forall k :: k in fin.known && k !in st.known ==> FirstFor(rest, store, k) == Some(fin.known[k].data)
    decreases |rest|
  {
    if rest != [] {
      var p := rest[0];
      var next := Step(p, store, st).value;
      MergeFromFirst(rest[1..], store, next, fin);
      var k0 := store.recent[p.symbol].orderId;
      assert k0 in next.known && next.known[k0].data == (if k0 in st.known then st.known[k0].data else p);
      assert forall k :: k in next.known ==> k in st.known || k == k0;
    }
  }

  /**
   * Of two fresh positions that map to one new order id, the first wins: the new
   * entry for an id the previous generation did not hold carries the exchange
   * record of the first non-zero position mapping to that id.
   */
  lemma MergeFirstWins(prev: seq<EntryView>, fetched: seq<RawPosition>, store: Store, vs: seq<EntryView>)
    requires Merge(prev, fetched, store) == Ok(vs)
    ensures forall v :: v in vs && v.orderId !in Ids(prev) ==> FirstFor(NonZero(fetched), store, v.orderId) == Some(v.data)
  {
    var fin := MergeOutcome(prev, fetched, store, vs);
    MergeFromFirst(NonZero(fetched), store, MergeState(ToDict(prev), map[], []), fin);
    forall v | v in vs && v.orderId !in Ids(prev)
      ensures FirstFor(NonZero(fetched), store, v.orderId) == Some(v.data)
    {
      var j :| 0 <= j < |fin.order| && vs[j] == v;
      assert fin.added[fin.order[j]] == v;
    }
  }

  /** Listing the added entries in insertion order and keying them again gives back the added map. */
  lemma ToDictOfValues(order: seq<OrderId>, added: map<OrderId, EntryView>)
    requires forall i, j :: 0 <= i < j < |order| ==> order[i] != order[j]
    requires forall k :: k in order <==> k in added
    requires forall k :: k in added ==> added[k].orderId == k
    ensures ToDict(Values(order, added)) == added
  {
    var vs := Values(order, added);
    assert UniqueIds(vs);
    ToDictUnique(vs);
    ValuesIds(order, added);
    forall k | k in added ensures ToDict(vs)[k] == added[k] {
      var j :| 0 <= j < |order| && order[j] == k;
      assert vs[j].orderId == k;
    }
  }

  /**
   * Replaying the rest of a rebuild whose known entries are replaced by the
   * entries that rebuild ends up adding gives the same added entries in the same
   * order, provided no known entry has an evicted status.
   */
  lemma {:induction false} MergeFromReplay(rest: seq<RawPosition>, prev: map<OrderId, EntryView>, all: seq<RawPosition>,
                                           store: Store, st: MergeState, fin: MergeState)
    requires Inv(prev, all, store, st)
    requires forall p :: p in rest ==> p in all
    requires forall k :: k in st.known ==> !IsEvicted(st.known[k].status)
    requires MergeFrom(rest, store, st) == Ok(fin)
    ensures MergeFrom(rest, store, st.(known := fin.added)) == Ok(fin.(known := fin.added))
    decreases |rest|
  {
    if rest != [] {
      var next := ReplayStepFacts(rest, prev, all, store, st, fin);
      StepReplay(rest[0], store, st, fin.added);
      MergeFromReplay(rest[1..], prev, all, store, next, fin);
    }
  }

  /** What the replay needs of the first iteration of a successful rest of a rebuild. */
  lemma ReplayStepFacts(rest: seq<RawPosition>, prev: map<OrderId, EntryView>, all: seq<RawPosition>,
                        store: Store, st: MergeState, fin: MergeState) returns (next: MergeState)
    requires Inv(prev, all, store, st)
    requires forall p :: p in rest ==> p in all
    requires forall k :: k in st.known ==> !IsEvicted(st.known[k].status)
    requires MergeFrom(rest, store, st) == Ok(fin) && rest != []
    ensures Step(rest[0], store, st) == Ok(next) && rest[0].symbol in store.recent
    ensures MergeFrom(rest[1..], store, next) == Ok(fin)
    ensures Inv(prev, all, store, next)
    ensures forall k :: k in next.known ==> !IsEvicted(next.known[k].status)
    ensures var k := store.recent[rest[0].symbol].orderId;
      k in fin.added && k in next.known && fin.added[k] == next.known[k]
  {
    var p := rest[0];
    next := Step(p, store, st).value;
    StepKeepsInv(p, prev, all, store, st);
    MergeFromFacts(rest, prev, all, store, st, fin);
    MergeFromFacts(rest[1..], prev, all, store, next, fin);
  }

  /**
   * One iteration replayed against a `cache_dict` that already holds the entry the
   * iteration produced takes the reuse branch and adds the same entry.
   */
  lemma StepReplay(p: RawPosition, store: Store, st: MergeState, known: map<OrderId, EntryView>)
    requires Step(p, store, st).Ok? && p.symbol in store.recent
    requires forall k :: k in st.known ==> !IsEvicted(st.known[k].status)
    requires var k := store.recent[p.symbol].orderId;
      k in known && k in Step(p, store, st).value.known && known[k] == Step(p, store, st).value.known[k]
    ensures Step(p, store, st.(known := known)) == Ok(Step(p, store, st).value.(known := known))
  {
  }

  /**
   * Rebuilding twice from unchanged exchange and store data gives the same
   * generation, entries and order, when the first generation held no entry with
   * an evicted status.
   */
  lemma MergeIdempotent(prev: seq<EntryView>, fetched: seq<RawPosition>, store: Store, vs: seq<EntryView>)
    requires Merge(prev, fetched, store) == Ok(vs)
    requires forall v :: v in prev ==> !IsEvicted(v.status)
    ensures Merge(vs, fetched, store) == Ok(vs)
  {
    var all := NonZero(fetched);
    var init := MergeState(ToDict(prev), map[], []);
    var fin := MergeOutcome(prev, fetched, store, vs);
    MergeFromReplay(all, ToDict(prev), all, store, init, fin);
    ToDictOfValues(fin.order, fin.added);
    assert init.(known := fin.added) == MergeState(ToDict(vs), map[], []);
  }
}
