/** A worked purchase on a concrete world state. The world state is given directly, because no
    operation of the chaincode can make a user registered (see Lifecycle.ReachableLedgersAreInert). */
module Scenarios {
  import opened Outcomes
  import opened Keys
  import opened Records
  import opened WorldState
  import opened Users

  const Alice: Key := UserKey("Alice", "111")
  const Bob: Key := UserKey("Bob", "222")
  const P1: Key := PropertyKey("P1")

  function Seeded(): Ledger
  {
    map[
      Alice := User("user", Profile("Alice", "a@x", "1", "111"), Some(200), 0, 0),
      Bob := User("user", Profile("Bob", "b@x", "2", "222"), Some(1000), 0, 0),
      P1 := Property("property-registration-request", "P1", Alice, 300, OnSale, 0, 0)
    ]
  }

  /** Bob buys P1 from Alice: Bob keeps 700, Alice gets 500, P1 is Registered again, and P1's owner
      is still Alice, because `purchaseProperty` never assigns the owner. Buying it a second time
      is refused as not for sale and writes nothing. */
  lemma BobBuysFromAlice()
    ensures var s := PurchaseProperty(Seeded(), "P1", "Bob", "222");
            && s.reply == Ok(())
            && Coins(s.ledger[Bob]) == 700
            && Coins(s.ledger[Alice]) == 500
            && s.ledger[P1].status == Registered
            && s.ledger[P1].owner == Alice
            && PurchaseProperty(s.ledger, "P1", "Bob", "222") == Step(Err(NotForSale), s.ledger)
  {
  }

  /** A buyer whose balance is below the price is refused and nothing is written. */
  lemma AliceCannotAffordOwnProperty()
    ensures PurchaseProperty(Seeded(), "P1", "Alice", "111") == Step(Err(InsufficientFunds), Seeded())
  {
  }
}
