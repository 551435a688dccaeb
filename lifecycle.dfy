/** Sequences of calls to the users' contract, and what every call preserves. The registrar's
    operations are not calls here: they never write, so they cannot change the ledger. */
module Lifecycle {
  import opened Outcomes
  import opened Keys
  import opened Records
  import opened WorldState
  import opened Users
  import Registrar

  /** One invocation of a writing operation of the users' contract, with its arguments. */
  datatype Call =
    | CreateUserCall(name: string, emailID: string, phoneNumber: string, ssn: string, now: Timestamp)
    | RequestNewUserCall(name: string, emailID: string, phoneNumber: string, ssn: string, now: Timestamp)
    | RechargeAccountCall(name: string, ssn: string, bankTransactionID: string)
    | PropertyRegistrationRequestCall(propertyId: string, ownerName: string, ownerSSN: string,
                                      propertyPrice: nat, now: Timestamp)
    | UpdatePropertyCall(propertyId: string, ownerName: string, ownerSSN: string, propertyStatus: string)
    | PurchasePropertyCall(propertyId: string, buyerName: string, buyerSSN: string)

  /** Whether the call succeeded, and the ledger it leaves. */
  datatype Effect = Effect(accepted: bool, ledger: Ledger)

  function Perform(m: Ledger, c: Call): (e: Effect)
    ensures !e.accepted ==> e.ledger == m
  {
    match c
    case CreateUserCall(n, e, p, s, t) =>
      var st := CreateUser(m, n, e, p, s, t); Effect(st.reply.Ok?, st.ledger)
    case RequestNewUserCall(n, e, p, s, t) =>
      var st := RequestNewUser(m, n, e, p, s, t); Effect(st.reply.Ok?, st.ledger)
    case RechargeAccountCall(n, s, id) =>
      var st := RechargeAccount(m, n, s, id); Effect(st.reply.Ok?, st.ledger)
    case PropertyRegistrationRequestCall(id, n, s, price, t) =>
      var st := PropertyRegistrationRequest(m, id, n, s, price, t); Effect(st.reply.Ok?, st.ledger)
    case UpdatePropertyCall(id, n, s, status) =>
      var st := UpdateProperty(m, id, n, s, status); Effect(st.reply.Ok?, st.ledger)
    case PurchasePropertyCall(id, n, s) =>
      var st := PurchaseProperty(m, id, n, s); Effect(st.reply.Ok?, st.ledger)
  }

  /** The ledger after the calls `cs`, one after the other, starting from `m`. */
  function Run(m: Ledger, cs: seq<Call>): Ledger
    decreases |cs|
  {
    if cs == [] then m else Run(Perform(m, cs[0]).ledger, cs[1..])
  }

  // ---------------------------------------------------------------------------------------------
  // Property records: never removed, never re-owned, status changed only from registered/onSale.

  /** A property record, once stored under a key, stays a property record with the same id, owner
      and price after any call; its status changes only if it was "registered" or "onSale". In
      particular a purchase does not transfer ownership, and a Pending property stays Pending. */
  lemma PerformKeepsProperty(m: Ledger, c: Call, k: Key)
    requires k in m && m[k].Property?
    ensures var after := Perform(m, c).ledger;
            && k in after && after[k].Property?
            && after[k].propertyId == m[k].propertyId
            && after[k].owner == m[k].owner
            && after[k].price == m[k].price
            && (after[k].status != m[k].status ==> MayChangeStatus(m[k].status))
  {
  }

  lemma {:induction false} RunKeepsProperty(m: Ledger, cs: seq<Call>, k: Key)
    requires k in m && m[k].Property?
    ensures var after := Run(m, cs);
            && k in after && after[k].Property?
            && after[k].propertyId == m[k].propertyId
            && after[k].owner == m[k].owner
            && after[k].price == m[k].price
            && (!MayChangeStatus(m[k].status) ==> after[k].status == m[k].status)
    decreases |cs|
  {
    if cs != [] {
      PerformKeepsProperty(m, cs[0], k);
      RunKeepsProperty(Perform(m, cs[0]).ledger, cs[1..], k);
    }
  }

  // ---------------------------------------------------------------------------------------------
  // Owner references point into the user key space.

  ghost predicate OwnersAreUserKeys(m: Ledger)
  {
    forall k :: k in m && m[k].Property? ==> m[k].owner.tag == UserTag
  }

  lemma PerformKeepsOwnersAreUserKeys(m: Ledger, c: Call)
    requires OwnersAreUserKeys(m)
    ensures OwnersAreUserKeys(Perform(m, c).ledger)
  {
  }

  lemma {:induction false} RunKeepsOwnersAreUserKeys(m: Ledger, cs: seq<Call>)
    requires OwnersAreUserKeys(m)
    ensures OwnersAreUserKeys(Run(m, cs))
    decreases |cs|
  {
    if cs != [] {
      PerformKeepsOwnersAreUserKeys(m, cs[0]);
      RunKeepsOwnersAreUserKeys(Perform(m, cs[0]).ledger, cs[1..]);
    }
  }

  // ---------------------------------------------------------------------------------------------
  // Ledgers reachable from the empty world state.

  /** Every record is a user record without a truthy balance under a user key, or a request under
      a request key. */
  ghost predicate OnlyAccounts(m: Ledger)
  {
    forall k :: k in m ==>
      || (k.tag == UserTag && m[k].User? && !IsRegistered(m[k]))
      || (k.tag == RequestTag && m[k].Request?)
  }

  /** On such a ledger no call that needs a registered user succeeds, and the two that do
      succeed write only balance-less users and requests. */
  lemma PerformKeepsOnlyAccounts(m: Ledger, c: Call)
    requires OnlyAccounts(m)
    ensures Perform(m, c).accepted ==> c.CreateUserCall? || c.RequestNewUserCall?
    ensures OnlyAccounts(Perform(m, c).ledger)
  {
  }

  lemma {:induction false} RunKeepsOnlyAccounts(m: Ledger, cs: seq<Call>)
    requires OnlyAccounts(m)
    ensures OnlyAccounts(Run(m, cs))
    decreases |cs|
  {
    if cs != [] {
      PerformKeepsOnlyAccounts(m, cs[0]);
      RunKeepsOnlyAccounts(Perform(m, cs[0]).ledger, cs[1..]);
    }
  }

  /** Starting from the empty world state, whatever calls have been made, nobody is registered:
      no call other than createUser and requestNewUser can succeed, and the registrar's approval
      functions find nothing, because no operation ever writes a coin balance, an approval key or a
      registrar property key. */
  lemma ReachableLedgersAreInert(cs: seq<Call>, c: Call, name: string, ssn: string, propertyId: string)
    ensures var m := Run(map[], cs);
            && (Perform(m, c).accepted ==> c.CreateUserCall? || c.RequestNewUserCall?)
            && Registrar.ApproveNewUser(m, name, ssn) == Err(NotFound)
            && Registrar.ApprovePropertyRegistration(m, propertyId) == Err(NotFound)
            && TotalCoins(m) == 0
  {
    var m := Run(map[], cs);
    RunKeepsOnlyAccounts(map[], cs);
    PerformKeepsOnlyAccounts(m, c);
    assert ApproveKey(name, ssn) !in m;
    assert RegistrarPropertyKey(propertyId) !in m;
    NoCoinsWithoutRegisteredUsers(m);
  }

  lemma {:induction false} NoCoinsWithoutRegisteredUsers(m: Ledger)
    requires OnlyAccounts(m)
    ensures TotalCoins(m) == 0
    decreases |m|
  {
    if m != map[] {
      var k :| k in m;
      TotalCoinsRemove(m, k);
      RemoveShrinks(m, k);
      NoCoinsWithoutRegisteredUsers(m - {k});
    }
  }
}
