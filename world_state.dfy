/** The world state the chaincode reads and writes through `ctx.stub`: a finite map from
    composite key to record. An absent key stands for the empty buffer `getState` returns. */
module WorldState {
  import opened Outcomes
  import opened Keys
  import opened Records

  type Ledger = map<Key, Record>

  /** `ctx.stub.getState(key)`, with the empty buffer as None. */
  function Lookup(m: Ledger, k: Key): (r: Option<Record>)
    ensures r.Some? <==> k in m
    ensures r.Some? ==> r.value == m[k]
  {
    if k in m then Some(m[k]) else None
  }

  /** Every key outside `ks` is as it was in `m`: present with the same record, or still absent. */
  ghost predicate ChangesOnly(m: Ledger, m': Ledger, ks: set<Key>)
  {
    forall k :: k !in ks ==> Lookup(m', k) == Lookup(m, k)
  }

  /** The sum of the coin balances held anywhere in the ledger. */
  ghost function TotalCoins(m: Ledger): nat
    decreases |m|
  {
    if m == map[] then 0
    else
      var k :| k in m;
      Coins(m[k]) + TotalCoins(m - {k})
  }

  lemma RemoveShrinks(m: Ledger, k: Key)
    requires k in m
    ensures |m - {k}| < |m|
  {
    assert (m - {k}).Keys == m.Keys - {k};
  }

  /** The total does not depend on the key `TotalCoins` happens to pick first. */
  lemma {:induction false} TotalCoinsRemove(m: Ledger, k: Key)
    requires k in m
    ensures TotalCoins(m) == Coins(m[k]) + TotalCoins(m - {k})
    decreases |m|
  {
    var j :| j in m && TotalCoins(m) == Coins(m[j]) + TotalCoins(m - {j});
    if j != k {
      RemoveShrinks(m, j);
      RemoveShrinks(m, k);
      TotalCoinsRemove(m - {j}, k);
      TotalCoinsRemove(m - {k}, j);
      assert m - {j} - {k} == m - {k} - {j};
    }
  }

  /** Writing `v` at `k` replaces the balance held at `k` by the balance of `v`. */
  lemma {:induction false} TotalCoinsUpdate(m: Ledger, k: Key, v: Record)
    ensures TotalCoins(m[k := v]) + (if k in m then Coins(m[k]) else 0) == TotalCoins(m) + Coins(v)
  {
    TotalCoinsRemove(m[k := v], k);
    if k in m {
      TotalCoinsRemove(m, k);
      assert m[k := v] - {k} == m - {k};
    } else {
      assert m[k := v] - {k} == m;
    }
  }

  /** The transaction context's stub: `getState` and `putState` on the world state. */
  class Stub {
    var state: Ledger

    constructor (initial: Ledger)
      ensures state == initial
    {
      state := initial;
    }

    method GetState(k: Key) returns (r: Option<Record>)
      ensures r == Lookup(state, k)
    {
      r := if k in state then Some(state[k]) else None;
    }

    /** `putState` upserts: there is no separate create and update. */
    method PutState(k: Key, v: Record)
      modifies this
      ensures state == old(state)[k := v]
    {
      state := state[k := v];
    }
  }
}
