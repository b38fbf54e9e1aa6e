/** The startup replay of the session store into live connections. */
module Restore {
  import opened Events

  /** What reconnecting one stored session gave: a connected client and the
      answer of `is_user_authorized`, or an exception from either call. */
  datatype RestoreOutcome = Connected(client: ClientId, authorized: bool) | Failed(msg: string)

  predicate Restores(o: RestoreOutcome) {
    o.Connected? && o.authorized
  }

  /** The connections `restore_sessions` registers: one per stored record
      whose connection came up authorized. */
  function Restored(store: map<UserId, string>, outcome: (UserId, string) -> RestoreOutcome): (r: map<UserId, ClientId>)
    ensures r.Keys <= store.Keys
    ensures forall u :: u in store ==> (u in r <==> Restores(outcome(u, store[u])))
    ensures forall u :: u in r ==> u in store && Restores(outcome(u, store[u])) && r[u] == outcome(u, store[u]).client
  {
    map u | u in store && Restores(outcome(u, store[u])) :: outcome(u, store[u]).client
  }

  /** The stored records that stay without a live connection. */
  function NotRestored(store: map<UserId, string>, outcome: (UserId, string) -> RestoreOutcome): set<UserId> {
    set u | u in store && !Restores(outcome(u, store[u]))
  }

  /** Every stored record is either restored or skipped: of N records of which
      K are skipped, N - K come back. */
  lemma RestoreCount(store: map<UserId, string>, outcome: (UserId, string) -> RestoreOutcome)
    ensures |Restored(store, outcome)| == |store| - |NotRestored(store, outcome)|
  {
    var r := Restored(store, outcome);
    var skipped := NotRestored(store, outcome);
    assert store.Keys == r.Keys + skipped;
    assert r.Keys * skipped == {};
    assert |store.Keys| == |r.Keys| + |skipped|;
  }

  /** Restoring the records one at a time, in any order, adds one record's
      connection per step. */
  lemma RestoredStep(store: map<UserId, string>, done: set<UserId>, u: UserId,
                     outcome: (UserId, string) -> RestoreOutcome)
    requires u in store && u !in done
    ensures var before := Restored(store - (store.Keys - done), outcome);
      var after := Restored(store - (store.Keys - (done + {u})), outcome);
      after == if Restores(outcome(u, store[u])) then before[u := outcome(u, store[u]).client] else before
  {
  }

  /** A non-empty set of pending records has a next one. */
  lemma SomeRecordLeft(pending: set<UserId>)
    requires pending != {}
    ensures exists u :: u in pending
  {
    if forall u :: u !in pending {
      assert false;
    }
  }
}
