# InMemoryDB — a verified model of a single-slot transactional key-value store

The store (`InMemoryDB` in `main.py`) keeps a committed base map `db` and an
optional overlay map `transaction`. The overlay is present exactly while a
transaction is open. Reads look in the overlay first, then in the base. Writes
go only into the overlay. `begin_transaction` installs an empty overlay.
`commit` overrides the base with the overlay and drops the overlay. `rollback`
drops the overlay. A call made in the wrong state raises `TransactionError`
and changes nothing.

The model has two modules:

- `StoreSpec` (`store_spec.dfy`) is the state machine as values. A `Store`
  holds the two fields. Each operation is a function from the old store to a
  `Transition`, which pairs an `Outcome` (`Ok` or `Err(TransactionError)`)
  with the new store. `Visible` is an independent reference definition of what
  a reader sees (the base overridden by the overlay), and `Get` is proved to
  agree with it. The lemmas cover the round trips and the demonstration
  scenarios. They also cover arbitrary sequences of calls (`Run` over a
  `seq<Call>`, where a failed call leaves the store as it was and the caller
  carries on, as the demonstration's `try`/`except` does).
- `InMemory` (`in_memory_db.dfy`) is the object itself. `class InMemoryDB`
  has the fields `db: map<K, V>` and `transaction: Option<map<K, V>>`, and its
  methods reassign them. Each method is proved to leave exactly the store, and
  return exactly the outcome, that the `StoreSpec` function of the same name
  gives. `DemoScenario` replays the demonstration sequence of `main()` on one
  fresh object and states the result of every call.

Where the code and its documentation differ, the model follows the code:

- The code has one exception class, `TransactionError`, raised with one of
  two messages. The model keeps one error type, `TransactionError`, with one
  constructor per message: `NoTransactionInProgress` and
  `TransactionAlreadyInProgress`.
- A read inside a transaction sees the transaction's own writes
  (main.py:10-11). The demonstration's check at main.py:62 expects `None`
  there, so that step would not print its success line. `DemoScenario` states
  the value the code returns, `Some(5)`.
- `get` returns `Option<V>` rather than `None` for a missing key
  (main.py:12), so an absent key is never confused with a stored value.

## Model

| member | source | states |
|---|---|---|
| StoreSpec.Get | main.py:9-12 | the result is the key's entry in the base overridden by the open overlay, and it is absent exactly when neither the overlay nor the base holds the key |
| StoreSpec.Put | main.py:14-17 | fails with NoTransactionInProgress and changes nothing when no transaction is open; otherwise maps the key to the value in the overlay, keeps every other overlay entry and the whole base, after which get(key) is the value and every other get is unchanged |
| StoreSpec.BeginTransaction | main.py:19-22 | fails with TransactionAlreadyInProgress and keeps the open overlay when one is open; otherwise installs an empty overlay; the base is kept and no get changes |
| StoreSpec.Commit | main.py:24-28 | fails with NoTransactionInProgress and changes nothing when no transaction is open; otherwise the new base answers every key as get did before the commit, keys outside the overlay keep their old base entry, and no transaction is left open |
| StoreSpec.Rollback | main.py:30-33 | fails with NoTransactionInProgress when no transaction is open; otherwise closes the transaction; the base is kept in both cases and every get afterwards reads the base |
| StoreSpec.InitIsEmpty | main.py:5-7 | a fresh store has no open transaction and get is absent for every key |
| StoreSpec.BeginRollbackRoundTrip | main.py:19-33 | on an idle store, begin_transaction succeeds and a rollback after it returns exactly the original store |
| StoreSpec.BeginWhileOpenKeepsPending | main.py:19-28 | a begin_transaction refused because a transaction is open leaves the store as it was, so a following commit commits the original pending writes |
| StoreSpec.LastWriteWinsAfterCommit | main.py:50-92 | begin; put(k, v1); put(k, v2); commit succeeds, get(k) is then v2, also inside a new transaction, and a second commit or a rollback fails with NoTransactionInProgress |
| StoreSpec.RollbackDiscardsWrites | main.py:99-117 | begin; put(k, v) makes get(k) v; a rollback then succeeds, restores the original store, get(k) reads the old base, and a second rollback fails |
| StoreSpec.UnwrittenKeyStaysAbsent | main.py:9-33 | a key absent from a store stays absent after any sequence of calls that never puts it |
| StoreSpec.FreshStoreUnwrittenKey | main.py:5-12 | on a fresh store, get(k) is absent after any sequence of calls that never puts k, in or out of a transaction |
| StoreSpec.BaseChangesOnlyOnCommit | main.py:14-33 | a sequence of calls without a commit leaves the base unchanged |
| StoreSpec.ReadsSeeLastWrite | main.py:9-17 | inside a transaction, after a sequence of puts, the transaction stays open, the base is unchanged, and get(k) is the last value put to k, or what get(k) was before if no put wrote k |
| StoreSpec.CommitMakesWritesDurable | main.py:24-28 | committing such a sequence of puts succeeds and the base then holds, for each key, the last value put to it, or what get returned before the puts |
| InMemory.InMemoryDB.constructor | main.py:5-7 | the new object has an empty base, no open transaction, and get is absent for every key |
| InMemory.InMemoryDB.Get | main.py:9-12 | reading the fields gives the StoreSpec.Get result, which is the key's entry in the base overridden by the open overlay |
| InMemory.InMemoryDB.Put | main.py:14-17 | the fields and the outcome are those of StoreSpec.Put on the old fields; the base is untouched; on success get(key) is the value and every other get is as before |
| InMemory.InMemoryDB.BeginTransaction | main.py:19-22 | the fields and the outcome are those of StoreSpec.BeginTransaction; the base is untouched; on failure the open overlay is kept, on success it is empty |
| InMemory.InMemoryDB.Commit | main.py:24-28 | the fields and the outcome are those of StoreSpec.Commit; no transaction is open afterwards, the base is kept on failure, and every get reads as it did before |
| InMemory.InMemoryDB.Rollback | main.py:30-33 | the fields and the outcome are those of StoreSpec.Rollback; the base is kept and no transaction is open afterwards |
| InMemory.DemoScenario | main.py:35-117 | the demonstration sequence on a fresh object reads A as absent, 5 and 6, then B as absent twice; put outside a transaction, the second commit and the rollback outside a transaction fail with NoTransactionInProgress; every other call succeeds |

## Left out

- The console narration of `main()` (main.py:35-117) is I/O. Only its sequence of calls and their results are modelled, in `DemoScenario`.
- Python's exception machinery (`raise`, `try`, `except`) is replaced by the returned `Outcome`; propagation is not modelled.
- The message text carried by `TransactionError` is not modelled; the constructor names stand for the two messages.
- A stored `None` value is indistinguishable from a missing key in the source's `get` (main.py:12); the model returns `Option<V>`, so that ambiguity is not reproduced.
- The overlay dict is updated in place by `put` and the base by `commit` (`dict.update`); the model reassigns map-valued fields. No reference to either dict leaves the object, so no aliasing is lost.
- Keys are any type whose values are compared by equality and values are any type; Python's hashing is not modelled.
- Concurrent callers are not modelled: the source has one transaction slot and no locking.
