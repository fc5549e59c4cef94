# Bybit position checker: lifecycle evaluator and position cache

This project models the two pieces of logic at the core of the Bybit position
checker. They are stated and proved in Dafny.

- **The lifecycle evaluator** (`utils/position_utils.py`).
  - `check_would_close` is a direction-dependent threshold test.
  - `check_and_close_position` moves a cached position through
    `OPEN → PROTECCION_13 → PROTECCION_23` or into one of the `CLOSED_*` statuses.
  - On a close, it builds the closing order and forces a cache refresh.
- **The position cache** (`trading/bybit_utils.py`).
  - `BybitUtils.get_all_open_positions` keeps `positions_cache` and `last_cache_update`.
  - It rebuilds the cache when the cache is empty, older than 60 seconds, or a refresh is forced.
  - A rebuild merges the exchange's non-zero positions with the previous generation, keyed by order id:
    - a new id is enriched from the store and starts `OPEN`;
    - a known id reuses the cached entry verbatim;
    - a reused entry with an evicted status is dropped.
  - `BybitUtils.close_position` builds the reduce-only market order and its client order id (`orderLinkId`).
  - `get_position_for_symbol` finds the exchange's record for a symbol.

Files and modules:

| file | module | contents |
|---|---|---|
| `wrappers.dfy` | `Wrappers` | `Option`, `Result` |
| `positions.dfy` | `Positions` | exchange records, order parameters, the store lookups, status names |
| `lifecycle.dfy` | `Lifecycle` | `CheckWouldClose`, the status table `Evaluate`, their lemmas |
| `reconcile.dfy` | `Reconcile` | the rebuild stated on values (`Merge`), with its invariant and properties |
| `bybit_utils.dfy` | `Bybit` | the cache class with its entry objects, the in-place rebuild proved against `Merge`, the close order |
| `decimal.dfy` | `Decimal` | decimal rendering of integers as in an f-string, its inverse, injectivity |
| `position_check.dfy` | `PositionCheck` | `check_and_close_position` as an imperative method |

How the model works:

- **Entries are objects.** Cache entries are objects of class `Bybit.Entry`. Their fields are constant except `status`.
  - The list `get_all_open_positions` returns is the cache itself.
  - `check_and_close_position` writes the new status into that very entry.
  - The next rebuild reuses the same object, so stage progress carries forward by aliasing.
- **The rebuild has a pure specification.** `Reconcile.Merge` describes a rebuild on values.
  - It follows the loop over `cache_dict`, `new_cache_dict` and its insertion order.
  - `Bybit.PositionCache.GetAllOpenPositions` does the rebuild in place and is proved to produce exactly the contents `Merge` gives.
- **Persistence and the clock are inputs.**
  - The store is a value `Store` with maps for the most recent transaction per symbol, the order parameters and the accounts, plus the set of transactions whose closing flag is set.
  - A failed lookup is the exception the rebuild raises. It is modelled as `Err`, and the cache is left as it was.
  - The exchange's listings and the clock `now` are parameters.
- **The price reading is explicit.** It is a datatype with the `"NaN"` sentinel as its own case.

Two consequences of the code that the model keeps as written:

- **Eviction never applies to the evaluator's statuses.**
  - The rebuild drops a cached entry only when its status is one of `C_SL`, `C_13`, `C_23` and `C_TP3` (`trading/bybit_utils.py:124`).
  - The evaluator writes `CLOSED_STOPLOSS`, `CLOSED_PROTECCION_13`, `CLOSED_PROTECCION_23` and `CLOSED_TP3` (`utils/position_utils.py:68,76,84,86`). None of these is on that list.
  - `Reconcile.ClosedEntryCarriedForward` and `PositionCheck.CheckAndClosePosition` prove the consequence: a position the evaluator has closed stays in the cache, as the same object, for as long as the exchange still lists it.
- **Two refreshes in a row can differ.**
  - `Reconcile.MergeIdempotent` proves that the second refresh gives the same generation when the cache before the first refresh holds no entry with an evicted status.
  - Without that condition it can fail. Take a previous cache holding one entry with status `C_SL` and a fetch that lists its position again. The first rebuild drops the entry. Its id is then unknown, so the second rebuild creates it again as `OPEN`.

## Model

| member | source | states |
|---|---|---|
| Lifecycle.CheckWouldClose | utils/position_utils.py:24-45 | Reaching the low threshold (≤ for long, ≥ for short) gives (true, false, false) whatever the high test says. Between the two thresholds gives all false. `change_status` holds iff low is not reached and high is. `would_close` holds iff low is reached, or high is reached in mode TP3. `closed_tp3` holds iff high is reached in mode TP3, and then implies `would_close`. Outside TP3, closing and advancing exclude each other. |
| Lifecycle.ShortMirrorsLong | utils/position_utils.py:29-44 | The short branch is the long branch on the negated price line. |
| Lifecycle.DirectionOf | utils/position_utils.py:57 | A position is short exactly when its side is "Sell". Any other side, unknown ones included, is long. |
| Lifecycle.Evaluate | utils/position_utils.py:57-86 | The status table. OPEN uses (stopLoss, point38): closes to CLOSED_STOPLOSS, advances to PROTECCION_13, else stays. PROTECCION_13 uses (point13, point61): closes to CLOSED_PROTECCION_13, advances to PROTECCION_23, else stays. PROTECCION_23 uses (point23, takeProfit3): reaching low gives CLOSED_PROTECCION_23, reaching high gives CLOSED_TP3, else stays. Any other status is left alone and not closed. A close happens iff the old status is live and the new one is closed. |
| Lifecycle.EvaluateNeverRegresses | utils/position_utils.py:61-86 | From a live status the stage never goes back, and advances by at most one protective stage unless the position closes. |
| Lifecycle.ClosedIsFinal | utils/position_utils.py:61-86 | A closed status is never changed or closed again. |
| Lifecycle.WorkedExamples | utils/position_utils.py:61-68 | A long below its stop loss closes to CLOSED_STOPLOSS. A short between its thresholds stays OPEN. |
| Reconcile.NonZero | trading/bybit_utils.py:98 | A position is kept iff it was fetched and its size is non-zero. No more positions come out than went in. |
| Reconcile.NonZeroAppend | trading/bybit_utils.py:98 | Filtering a concatenation is the concatenation of the filtered parts, so the kept positions stay in fetch order. |
| Reconcile.NonZeroSingle | trading/bybit_utils.py:98 | A single position is kept exactly when its size is non-zero. With `NonZeroAppend` this fixes the filter's result for every fetch. |
| Reconcile.Step | trading/bybit_utils.py:106-129 | One iteration keeps the state well formed. It fails only when a store lookup for its position has no answer, and it fails with `MissingTransaction` exactly when the symbol has no recent transaction. |
| Reconcile.MergeFrom | trading/bybit_utils.py:105-129 | The rest of the loop keeps the state well formed. It fails only when some remaining position has a store lookup with no answer. |
| Reconcile.Merge | trading/bybit_utils.py:97-131 | A rebuild fails only when some fetched non-zero position has a store lookup with no answer. A fetch with no non-zero position gives the empty cache. Its other properties are the `Merge*` lemmas below. |
| Reconcile.ToDict | trading/bybit_utils.py:101 | `cache_dict` holds exactly the ids of the generation, each under its own id, taken from the generation. |
| Reconcile.ToDictUnique | trading/bybit_utils.py:101 | With unique ids, every entry is found under its own id. |
| Reconcile.MergeUniqueIds | trading/bybit_utils.py:111-131 | After a rebuild the order ids in the cache are unique. |
| Reconcile.MergeOnlyFresh | trading/bybit_utils.py:97-131 | Every entry of the new generation belongs to the order id of a fresh non-zero position. A previous entry whose id no longer appears is dropped. |
| Reconcile.MergeNewEntries | trading/bybit_utils.py:111-121 | An entry whose id was not cached has status OPEN. Its record is a fetched non-zero position. Its transaction id, parameters, account number and last transaction number are those of the store lookups. |
| Reconcile.MergeFromFirst | trading/bybit_utils.py:105-129 | Over the rest of the loop, known entries never change, and an id first met there gets the entry of the first position mapping to it. |
| Reconcile.MergeFirstWins | trading/bybit_utils.py:105-129 | Of two fresh positions mapping to one new order id, the first one's record is the entry. |
| Reconcile.MergeReusesVerbatim | trading/bybit_utils.py:122-129 | An entry whose id was cached is the cached entry unchanged, status and parameters included. Its status is not an evicted one. |
| Reconcile.MergeComplete | trading/bybit_utils.py:105-129 | Every fresh non-zero position maps, through the store, to an id in the new generation, unless the previous entry for it has an evicted status. |
| Reconcile.MergeEvicts | trading/bybit_utils.py:123-127 | A cached entry with status C_SL, C_13, C_23 or C_TP3 is left out of the new generation. |
| Reconcile.ClosedEntryCarriedForward | trading/bybit_utils.py:123-127 | A cached entry with a CLOSED_* status is carried into the new generation unchanged while the exchange still lists its position, because the eviction list does not name those statuses. |
| Reconcile.ToDictOfValues | trading/bybit_utils.py:131 | Keying `list(new_cache_dict.values())` again gives back `new_cache_dict`. |
| Reconcile.MergeFromReplay | trading/bybit_utils.py:105-129 | Replaying the rest of the loop against the dictionary it ended with adds the same entries in the same order, when no known entry is evicted. |
| Reconcile.StepReplay | trading/bybit_utils.py:122-129 | One iteration replayed against a dictionary that already holds its entry takes the reuse branch and adds the same entry. |
| Reconcile.MergeIdempotent | trading/bybit_utils.py:87-132 | Rebuilding again from the same exchange and store data gives the same generation, entries and order, when the first generation held no evicted status. |
| Bybit.PositionCache.constructor | trading/bybit_utils.py:26-30 | The cache starts empty, with no last update (`datetime.min`). |
| Bybit.PositionCache.NeedsRefresh | trading/bybit_utils.py:94 | A forced call or an empty cache always rebuilds. When no rebuild is due, there is a last update and it is at most 60 s old. |
| Bybit.PositionCache.GetAllOpenPositions | trading/bybit_utils.py:87-145 | No refresh is due: cache and timestamp unchanged, and the cache itself is returned. Refresh due (empty, older than 60 s, or forced) and the lookups succeed: the entries show exactly `Merge` of the old contents and the fetch, the timestamp is `now`, and the cache itself is returned. A lookup fails: the error is raised and nothing changes. Order ids stay unique. Every entry is an old object or a new one, and one whose id was cached is the old object. |
| Bybit.Rebuild | trading/bybit_utils.py:97-131 | The in-place rebuild yields entries whose contents are `Merge` of the previous ones, or `Merge`'s error. Ids are unique. Objects are reused for known ids and allocated otherwise. |
| Bybit.RebuildEntries | trading/bybit_utils.py:103-131 | `list(new_cache_dict.values())` over objects shows the values `MergeFrom` computes, or its error. Every object is from `cache_dict` or new, and a known id keeps its object. |
| Bybit.RebuildLoop | trading/bybit_utils.py:105-129 | The loop ends in the state `MergeFrom` computes, or stops at its first lookup error. The object dictionaries mirror that state. |
| Bybit.Visit | trading/bybit_utils.py:106-129 | One iteration: the lookup error `Step` raises, or the dictionaries of objects updated as `Step` updates the values. It allocates only for a new id. |
| Bybit.ById | trading/bybit_utils.py:101 | `cache_dict` over objects: every cached entry's id is a key, and each key maps to a cached entry with that id. |
| Bybit.ByIdViews | trading/bybit_utils.py:101 | The contents of `cache_dict` over objects are `cache_dict` over values. |
| Bybit.FindBySymbol | trading/bybit_utils.py:38-43 | None iff no listed position has the symbol. Otherwise the result is the first listed position with the symbol. |
| Bybit.ClosePosition | trading/bybit_utils.py:45-77 | An order is built iff the exchange still lists the symbol and the closing flag of the entry's transaction is not set. The order is reduce-only, Market, on the symbol, for the listed size. It sells what is listed as Buy and buys otherwise. Its link id is `{account}_{symbol}_{n}_{status}_safety`. |
| Bybit.ClosingSide | trading/bybit_utils.py:60 | The closing side is "Buy" or "Sell". It is "Sell" exactly for a "Buy" position, and for a Buy or Sell position it is the opposite side. |
| Bybit.LinkId | trading/bybit_utils.py:71 | The link id starts with the account number, `_`, the symbol and `_`, and ends with `_safety`. |
| Bybit.ClosingSideOpposesDirection | trading/bybit_utils.py:60 | For a Buy or Sell record, the closing side is Buy exactly when the evaluator treats the position as short. |
| Bybit.LinkIdInjective | trading/bybit_utils.py:71 | For one symbol and status, distinct account numbers or transaction numbers give distinct link ids, so retries can be deduplicated. |
| Decimal.IntToString | trading/bybit_utils.py:71 | The rendering of an integer holds no `_`. A non-negative integer renders as a non-empty string of digits, a negative one as `-` followed by digits. |
| Decimal.IntToStringRoundTrip | trading/bybit_utils.py:71 | Parsing the decimal rendering of an integer gives the integer back. |
| Decimal.IntToStringInjective | trading/bybit_utils.py:71 | Distinct integers render as distinct strings. |
| PositionCheck.Reevaluate | utils/position_utils.py:57-86 | The entry's status becomes `Evaluate`'s, written in place. The result is `Evaluate`'s close decision, and a close leaves a closed status. |
| PositionCheck.CloseAndRefresh | utils/position_utils.py:89-109 | The close order `ClosePosition` gives, then a forced refresh whose result is `Merge` of the cache contents, or its error. A cached position still listed by the exchange stays in the cache as the same object. |
| PositionCheck.CheckAndClosePosition | utils/position_utils.py:48-109 | A NaN reading or a zero size changes nothing. Otherwise the status becomes `Evaluate`'s, written into the shared entry, and a close happens iff `Evaluate` says so. No close means no order and an untouched cache. A close builds the order with the entry's account number, `lastTransactionNumber + 1` and the new status, then forces a refresh. That refresh sees the new status through the cache and yields `Merge` of it. A closed position still listed stays in the cache as the same object. |

## Left out

- Logging, `print(response)` and the `time.sleep` calls (`trading/bybit_utils.py:142-143`, `utils/position_utils.py:102,108`): they have no effect on the modelled state.
- The e-mail notification (`utils/position_utils.py:96-98`) is not modelled, and neither is any other exception raised after the status write. Such an exception does change the outcome:
  - `send_email` (`utils/email_module.py:15-25`) does not catch SMTP or login errors.
  - It is called after the closed status is written into the shared entry (`utils/position_utils.py:66-86`) and before `close_position` (`utils/position_utils.py:103,108`) and the forced refresh (`utils/position_utils.py:109`).
  - `main.py:31-37` logs the exception and goes on with the next position.
  - The entry keeps its `CLOSED_*` status, so `Lifecycle.ClosedIsFinal` means it is never evaluated to a close again. No order is sent for it, and the position stays open on the exchange.
  - `PositionCheck.CheckAndClosePosition` models only the run in which these calls return normally.
- The HTTP session, its credentials, `generate_signature`, `get_current_price` and `close_short_position`: these are exchange calls. `close_position` is modelled by the order record it would submit, and the exchange's response is not modelled.
- The exchange listings, the MongoDB queries and the wall clock become parameters: the fetched positions, the `Store` value and `now`. `db/mongo_utils.py` is not part of this model beyond the lookups it answers.
- `mongo.get_transaction_state` does not exist in `db/mongo_utils.py`. The closing flag is an oracle, the set `Store.closing`.
- `check_and_close_position` imports `close_position` as a module-level function, but it is a method of `BybitUtils`. The model calls the method's logic.
- The tracked account id is a constant in `trading/bybit_utils.py:107`. `Store.recent` is taken to be keyed by symbol for that one account.
- `LIFE_CYCLE_MAP` is defined and never used. `main.py`'s poll loop and its per-position exception handling are orchestration only.
- Prices, sizes and thresholds are `real`, not IEEE floats.
  - A float NaN price is not modelled. In Python it passes the `"NaN"` string guard and every comparison with it is false, so it never changes a status.
  - The order quantity is the listed size, not its `str()` rendering.
- A missing key in `orderParams` (a `KeyError`) is not modelled. The order parameters always have the six levels.
- `positions_cache` being `None` and being `[]` behave alike in the code. Both are the empty sequence here.
- The in-place writes of `order_id`, `transaction_id`, `orderParams` and `status` into the fetched position dicts are modelled by building a new entry object. A fetched dict that is not kept is never observed again.
- An exchange record is flattened to (symbol, side, size). The code reads the symbol at the top level of a `get_position_for_symbol` item and side and size under `data`. The model takes them to describe one position.
- Bybit.ClosePosition: a side other than "Buy" or "Sell" is evaluated as long by the lifecycle but closed with "Buy". The lemma relating the two sides assumes a Buy or Sell record.
- `accountNumber` and `lastTransactionNumber` are taken to be Python `int`s, as `Store.accounts` holds them. A float would render as `6.0` in the link id, and a string could hold `_`. `Bybit.LinkIdInjective` depends on the integer rendering.
