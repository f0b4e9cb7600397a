/** The store object itself: two fields that its methods update in place.

    Each method is proved against the function of the same name in
    StoreSpec: it returns that function's outcome instead of raising
    TransactionError, and leaves the fields equal to that function's store.
 */
module InMemory {
  import opened StoreSpec

  class InMemoryDB<K(==, !new), V> {
    /** Committed base. */
    var db: map<K, V>
    /** Overlay of the open transaction; None while none is open. */
    var transaction: Option<map<K, V>>

    /** The fields as a StoreSpec value. */
    function Model(): Store<K, V>
      reads this
    {
      Store(db, transaction)
    }

    constructor ()
      ensures Model() == Init()
      ensures !Model().InTransaction() && forall k :: Get(k) == None
    {
      db := map[];
      transaction := None;
    }

    /** Overlay first, then base, else absent; changes nothing. */
    function Get(key: K): (r: Option<V>)
      reads this
      ensures r == StoreSpec.Get(Model(), key)
      ensures r == Lookup(Visible(Model()), key)
    {
      if transaction.Some? && key in transaction.value then Some(transaction.value[key])
      else if key in db then Some(db[key])
      else None
    }

    method Put(key: K, val: V) returns (o: Outcome)
      modifies this
      ensures Transition(o, Model()) == StoreSpec.Put(old(Model()), key, val)
      ensures o == if old(transaction).Some? then Ok else Err(NoTransactionInProgress)
      ensures db == old(db)
      ensures o.Ok? ==> Get(key) == Some(val) && forall k :: k != key ==> Get(k) == old(Get(k))
    {
      if transaction.None? {
        return Err(NoTransactionInProgress);
      }
      transaction := Some(transaction.value[key := val]);
      o := Ok;
    }

    method BeginTransaction() returns (o: Outcome)
      modifies this
      ensures Transition(o, Model()) == StoreSpec.BeginTransaction(old(Model()))
      ensures o == if old(transaction).Some? then Err(TransactionAlreadyInProgress) else Ok
      ensures db == old(db)
      ensures o.Err? ==> transaction == old(transaction)
      ensures o.Ok? ==> transaction == Some(map[])
    {
      if transaction.Some? {
        return Err(TransactionAlreadyInProgress);
      }
      transaction := Some(map[]);
      o := Ok;
    }

    method Commit() returns (o: Outcome)
      modifies this
      ensures Transition(o, Model()) == StoreSpec.Commit(old(Model()))
      ensures o == if old(transaction).Some? then Ok else Err(NoTransactionInProgress)
      ensures o.Err? ==> db == old(db)
      ensures transaction.None?
      ensures forall k :: Get(k) == old(Get(k))
    {
      if transaction.None? {
        return Err(NoTransactionInProgress);
      }
      db := db + transaction.value;
      transaction := None;
      o := Ok;
    }

    method Rollback() returns (o: Outcome)
      modifies this
      ensures Transition(o, Model()) == StoreSpec.Rollback(old(Model()))
      ensures o == if old(transaction).Some? then Ok else Err(NoTransactionInProgress)
      ensures db == old(db) && transaction.None?
    {
      if transaction.None? {
        return Err(NoTransactionInProgress);
      }
      transaction := None;
      o := Ok;
    }
  }

  /** The demonstration sequence run against one fresh store: the result of
      every get and the outcome of every mutating call, in order. The read
      inside the first transaction sees the value just put. */
  method DemoScenario() returns (gets: seq<Option<int>>, outcomes: seq<Outcome>)
    ensures gets == [None, Some(5), Some(6), None, None]
    ensures outcomes == [Err(NoTransactionInProgress), Ok, Ok, Ok, Ok,
                         Err(NoTransactionInProgress), Err(NoTransactionInProgress),
                         Ok, Ok, Ok]
  {
    var store := new InMemoryDB<string, int>();
    var r1 := store.Get("A");
    var o2 := store.Put("A", 5);
    var o3 := store.BeginTransaction();
    var o4 := store.Put("A", 5);
    var r5 := store.Get("A");
    var o6 := store.Put("A", 6);
    var o7 := store.Commit();
    var r8 := store.Get("A");
    var o9 := store.Commit();
    var o10 := store.Rollback();
    var r11 := store.Get("B");
    var o12 := store.BeginTransaction();
    var o13 := store.Put("B", 10);
    var o14 := store.Rollback();
    var r15 := store.Get("B");
    gets := [r1, r5, r8, r11, r15];
    outcomes := [o2, o3, o4, o6, o7, o9, o10, o12, o13, o14];
  }
}
