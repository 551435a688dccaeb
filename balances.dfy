/** How the users' operations move coin balances: what one recharge or one purchase does to the
    balances involved and to the total held in the ledger. */
module Balances {
  import opened Outcomes
  import opened Keys
  import opened Records
  import opened WorldState
  import opened Users

  /** A successful recharge adds exactly the table amount to the total held in the ledger. */
  lemma {:induction false} RechargeAddsToTotal(m: Ledger, name: string, ssn: string, bankTransactionID: string)
    ensures var s := RechargeAccount(m, name, ssn, bankTransactionID);
            s.reply.Ok? ==> TotalCoins(s.ledger) == TotalCoins(m) + CoinTable[bankTransactionID]
  {
    var s := RechargeAccount(m, name, ssn, bankTransactionID);
    if s.reply.Ok? {
      TotalCoinsUpdate(m, UserKey(name, ssn), s.reply.value);
    }
  }

  /** A successful purchase debits the buyer by the price and credits a seller who holds a balance
      by the price; the property ends Registered with the owner it had. When buyer and seller are
      the same user the credit, written last, is what remains. */
  lemma PurchaseMovesPrice(m: Ledger, propertyId: string, buyerName: string, buyerSSN: string)
    ensures var s := PurchaseProperty(m, propertyId, buyerName, buyerSSN);
            var pk, bk := PropertyKey(propertyId), UserKey(buyerName, buyerSSN);
            s.reply.Ok? ==>
              var p := m[pk];
              var sk := p.owner;
              && ChangesOnly(m, s.ledger, {pk, bk, sk})
              && bk in s.ledger && sk in s.ledger && pk in s.ledger
              && (sk != pk ==> s.ledger[pk] == p.(status := Registered))
              && (sk != bk ==> Coins(s.ledger[bk]) == Coins(m[bk]) - p.price && Coins(m[bk]) >= p.price)
              && (sk != bk && m[sk].User? && m[sk].upgradCoins.Some? ==>
                    Coins(s.ledger[sk]) == Coins(m[sk]) + p.price)
              && (sk == bk ==> Coins(s.ledger[bk]) == Coins(m[bk]) + p.price)
  {
  }

  /** Purchase and the ledger's total: between two different users with balances the coins are
      conserved; a purchase from oneself creates `price` coins; a seller without a balance is not
      credited, so the price leaves the ledger. */
  lemma {:induction false} PurchaseTotal(m: Ledger, propertyId: string, buyerName: string, buyerSSN: string)
    ensures var s := PurchaseProperty(m, propertyId, buyerName, buyerSSN);
            var bk := UserKey(buyerName, buyerSSN);
            s.reply.Ok? ==>
              var p := m[PropertyKey(propertyId)];
              var sk := p.owner;
              && (sk != bk && m[sk].User? && m[sk].upgradCoins.Some? ==> TotalCoins(s.ledger) == TotalCoins(m))
              && (sk != bk && !(m[sk].User? && m[sk].upgradCoins.Some?) ==>
                    TotalCoins(s.ledger) + p.price == TotalCoins(m))
              && (sk == bk ==> TotalCoins(s.ledger) == TotalCoins(m) + p.price)
  {
    var s := PurchaseProperty(m, propertyId, buyerName, buyerSSN);
    if s.reply.Ok? {
      var pk, bk := PropertyKey(propertyId), UserKey(buyerName, buyerSSN);
      var p := m[pk];
      var sk := p.owner;
      var m1 := m[pk := p.(status := Registered)];
      var m2 := m1[bk := m[bk].(upgradCoins := Some(Coins(m[bk]) - p.price))];
      var m3 := m2[sk := Credit(m[sk], p.price)];
      assert s.ledger == m3;
      TotalCoinsUpdate(m, pk, p.(status := Registered));
      TotalCoinsUpdate(m1, bk, m[bk].(upgradCoins := Some(Coins(m[bk]) - p.price)));
      TotalCoinsUpdate(m2, sk, Credit(m[sk], p.price));
    }
  }

  /** A buyer who spends the whole balance on a property from someone else is left with 0 coins
      and so no longer passes the registration test. */
  lemma SpendingWholeBalanceUnregisters(m: Ledger, propertyId: string, buyerName: string, buyerSSN: string)
    requires CallerRegistered(m, buyerName, buyerSSN)
    requires ListedForSale(m, PropertyKey(propertyId))
    requires m[PropertyKey(propertyId)].owner in m
    requires m[PropertyKey(propertyId)].owner != UserKey(buyerName, buyerSSN)
    requires Coins(m[UserKey(buyerName, buyerSSN)]) == m[PropertyKey(propertyId)].price
    ensures var s := PurchaseProperty(m, propertyId, buyerName, buyerSSN);
            s.reply.Ok? && !IsRegistered(s.ledger[UserKey(buyerName, buyerSSN)])
  {
  }

  /** The registration test is truthiness: a user record whose balance is 0 (the balance
      `approveNewUser` hands out) is refused by every operation that needs a registered caller. */
  lemma ZeroBalanceIsRejected(m: Ledger, name: string, ssn: string, bankTransactionID: string,
                              propertyId: string, price: nat, status: string, now: Timestamp)
    requires UserKey(name, ssn) in m && m[UserKey(name, ssn)].User?
    requires m[UserKey(name, ssn)].upgradCoins == Some(0)
    ensures RechargeAccount(m, name, ssn, bankTransactionID) == Step(Err(NotRegistered), m)
    ensures PropertyRegistrationRequest(m, propertyId, name, ssn, price, now) == Step(Err(NotRegistered), m)
    ensures UpdateProperty(m, propertyId, name, ssn, status) == Step(Err(NotRegistered), m)
    ensures PurchaseProperty(m, propertyId, name, ssn) == Step(Err(NotRegistered), m)
  {
  }
}
