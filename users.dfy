/** The users' contract (`UsersContract` in chaincode/users.js) as functions of the world state.
    The read-only operations are used as they are; for each operation that writes, the function
    gives the reply and the world state after the call, and is the specification the methods in
    module UsersContract are proved against. */
module Users {
  import opened Outcomes
  import opened Keys
  import opened Records
  import opened WorldState

  /** `mapperTxnIdNUpgradCoins`: bank transaction id to number of coins bought. */
  const CoinTable: map<string, nat> := map["upg100" := 100, "upg500" := 500, "upg1000" := 1000]

  /** The reply of one call together with the world state it leaves behind. */
  datatype Step<+T> = Step(reply: Result<T>, ledger: Ledger)

  /** `viewUser`: the record stored under the user key, or NotFound. Never writes. */
  function ViewUser(m: Ledger, name: string, ssn: string): (r: Result<Record>)
    ensures r.Ok? <==> UserKey(name, ssn) in m
    ensures r.Ok? ==> r.value == m[UserKey(name, ssn)]
    ensures r.Err? ==> r.error == NotFound
  {
    match Lookup(m, UserKey(name, ssn))
    case Some(u) => Ok(u)
    case None => Err(NotFound)
  }

  /** The guard every paying or filing operation runs first: `viewUser` found a record and
      `!user["upgradCoins"]` is false. An absent record fails it just as a record without balance. */
  predicate CallerRegistered(m: Ledger, name: string, ssn: string)
    ensures CallerRegistered(m, name, ssn) <==>
              UserKey(name, ssn) in m && m[UserKey(name, ssn)].User? && Coins(m[UserKey(name, ssn)]) > 0
  {
    var user := ViewUser(m, name, ssn);
    user.Ok? && IsRegistered(user.value)
  }

  /** `fetchUser`: the record stored under an already derived key, or None (`'false'`). */
  function FetchUser(m: Ledger, userKey: Key): (r: Option<Record>)
    ensures r.Some? <==> userKey in m
    ensures r.Some? ==> r.value == m[userKey]
  {
    Lookup(m, userKey)
  }

  /** `buyUpgradCoins`: the coins a bank transaction id buys. The source returns
      `mapperTxnIdNUpgradCoins.bankTransactionID` (a literal property name, always undefined);
      the model returns the table entry for the argument, which is evidently intended. */
  function BuyUpgradCoins(bankTransactionID: string): (r: Result<nat>)
    ensures bankTransactionID == "upg100" ==> r == Ok(100)
    ensures bankTransactionID == "upg500" ==> r == Ok(500)
    ensures bankTransactionID == "upg1000" ==> r == Ok(1000)
    ensures bankTransactionID !in {"upg100", "upg500", "upg1000"} ==> r == Err(InvalidTransactionId)
    ensures r.Ok? ==> r.value > 0
  {
    if bankTransactionID in CoinTable then Ok(CoinTable[bankTransactionID]) else Err(InvalidTransactionId)
  }

  /** `viewProperty`: only the status field of the property, for a registered caller. */
  function ViewProperty(m: Ledger, propertyId: string, ownerName: string, ownerSSN: string): (r: Result<Option<string>>)
    ensures !CallerRegistered(m, ownerName, ownerSSN) ==> r == Err(NotRegistered)
    ensures CallerRegistered(m, ownerName, ownerSSN) && PropertyKey(propertyId) !in m ==> r == Err(NotFound)
    ensures CallerRegistered(m, ownerName, ownerSSN) && PropertyKey(propertyId) in m ==>
              r == Ok(StatusField(m[PropertyKey(propertyId)]))
  {
    if !CallerRegistered(m, ownerName, ownerSSN) then Err(NotRegistered)
    else match Lookup(m, PropertyKey(propertyId))
      case Some(p) => Ok(StatusField(p))
      case None => Err(NotFound)
  }

  /** `createUser`: never overwrites; on success writes exactly the user key, with a user record
      that has no coin balance (so it is not yet registered). */
  function CreateUser(m: Ledger, name: string, emailID: string, phoneNumber: string, ssn: string, now: Timestamp)
    : (s: Step<Record>)
    ensures s.reply.Err? <==> UserKey(name, ssn) in m
    ensures s.reply.Err? ==> s.reply.error == AlreadyExists && s.ledger == m
    ensures s.reply.Ok? ==> var u := s.reply.value;
              && u.User? && u.upgradCoins.None? && !IsRegistered(u)
              && u.profile == Profile(name, emailID, phoneNumber, ssn)
              && s.ledger == m[UserKey(name, ssn) := u]
  {
    var userKey := UserKey(name, ssn);
    if userKey in m then Step(Err(AlreadyExists), m)
    else
      var user := User("user", Profile(name, emailID, phoneNumber, ssn), None, now, now);
      Step(Ok(user), m[userKey := user])
  }

  /** `requestNewUser`: needs the user record and no earlier request; on success writes only the
      request key and leaves the user record as it was. */
  function RequestNewUser(m: Ledger, name: string, emailID: string, phoneNumber: string, ssn: string, now: Timestamp)
    : (s: Step<Record>)
    ensures s.reply == Err(NotFound) <==> UserKey(name, ssn) !in m
    ensures s.reply == Err(AlreadyExists) <==> UserKey(name, ssn) in m && RequestKey(name, ssn) in m
    ensures s.reply.Ok? <==> UserKey(name, ssn) in m && RequestKey(name, ssn) !in m
    ensures s.reply.Err? ==> s.ledger == m
    ensures s.reply.Ok? ==> var q := s.reply.value;
              && RequestKey(name, ssn) !in m
              && q.Request? && q.profile == Profile(name, emailID, phoneNumber, ssn)
              && s.ledger == m[RequestKey(name, ssn) := q]
    ensures Lookup(s.ledger, UserKey(name, ssn)) == Lookup(m, UserKey(name, ssn))
  {
    var userKey := UserKey(name, ssn);
    var requestKey := RequestKey(name, ssn);
    if userKey !in m then Step(Err(NotFound), m)
    else if requestKey in m then Step(Err(AlreadyExists), m)
    else
      var request := Request("request", Profile(name, emailID, phoneNumber, ssn), now, now);
      Step(Ok(request), m[requestKey := request])
  }

  /** `rechargeAccount`: a registered user with a known bank transaction id gains exactly the
      table amount; nothing else in the record and nothing else in the ledger changes. */
  function RechargeAccount(m: Ledger, name: string, ssn: string, bankTransactionID: string): (s: Step<Record>)
    ensures s.reply == Err(NotRegistered) <==> !CallerRegistered(m, name, ssn)
    ensures s.reply == Err(InvalidTransactionId) <==>
              CallerRegistered(m, name, ssn) && bankTransactionID !in CoinTable
    ensures s.reply.Ok? <==> CallerRegistered(m, name, ssn) && bankTransactionID in CoinTable
    ensures s.reply.Err? ==> s.ledger == m
    ensures s.reply.Ok? ==> var u := s.reply.value; var old_u := m[UserKey(name, ssn)];
              && bankTransactionID in CoinTable
              && Coins(u) == Coins(old_u) + CoinTable[bankTransactionID]
              && u == old_u.(upgradCoins := u.upgradCoins)
              && IsRegistered(u)
              && s.ledger == m[UserKey(name, ssn) := u]
  {
    var userKey := UserKey(name, ssn);
    var user := ViewUser(m, name, ssn);
    if !(user.Ok? && IsRegistered(user.value)) then Step(Err(NotRegistered), m)
    else match BuyUpgradCoins(bankTransactionID)
      case Err(e) => Step(Err(e), m)
      case Ok(amount) =>
        var recharged := user.value.(upgradCoins := Some(user.value.upgradCoins.value + amount));
        Step(Ok(recharged), m[userKey := recharged])
  }

  /** `propertyRegistrationRequest`: a registered owner files a property id not yet in use; the one
      record written has status Pending, the owner's user key and the given price. */
  function PropertyRegistrationRequest(m: Ledger, propertyId: string, ownerName: string, ownerSSN: string,
                                       propertyPrice: nat, now: Timestamp): (s: Step<Record>)
    ensures s.reply == Err(NotRegistered) <==> !CallerRegistered(m, ownerName, ownerSSN)
    ensures s.reply == Err(AlreadyExists) <==>
              CallerRegistered(m, ownerName, ownerSSN) && PropertyKey(propertyId) in m
    ensures s.reply.Ok? <==> CallerRegistered(m, ownerName, ownerSSN) && PropertyKey(propertyId) !in m
    ensures s.reply.Err? ==> s.ledger == m
    ensures s.reply.Ok? ==> var p := s.reply.value;
              && PropertyKey(propertyId) !in m
              && p.Property? && p.propertyId == propertyId && p.status == Pending
              && p.owner == UserKey(ownerName, ownerSSN) && p.price == propertyPrice
              && s.ledger == m[PropertyKey(propertyId) := p]
  {
    var ownerKey := UserKey(ownerName, ownerSSN);
    var user := ViewUser(m, ownerName, ownerSSN);
    if !(user.Ok? && IsRegistered(user.value)) then Step(Err(NotRegistered), m)
    else
      var requestKey := PropertyKey(propertyId);
      if requestKey in m then Step(Err(AlreadyExists), m)
      else
        var property := Property("property-registration-request", propertyId, ownerKey, propertyPrice,
                                 Pending, now, now);
        Step(Ok(property), m[requestKey := property])
  }

  /** `updateProperty`: the registered owner of a registered or listed property sets its status;
      only that one field of that one record changes. */
  function UpdateProperty(m: Ledger, propertyId: string, ownerName: string, ownerSSN: string,
                          propertyStatus: string): (s: Step<()>)
    ensures !CallerRegistered(m, ownerName, ownerSSN) ==> s.reply == Err(NotRegistered)
    ensures CallerRegistered(m, ownerName, ownerSSN) && PropertyKey(propertyId) !in m ==>
              s.reply == Err(NotFound)
    ensures CallerRegistered(m, ownerName, ownerSSN) && PropertyKey(propertyId) in m ==>
              var p := m[PropertyKey(propertyId)];
              && (!(p.Property? && p.owner == UserKey(ownerName, ownerSSN)) ==> s.reply == Err(NotOwner))
              && (p.Property? && p.owner == UserKey(ownerName, ownerSSN) && !MayChangeStatus(p.status) ==>
                    s.reply == Err(NotApprovedYet))
    ensures s.reply.Err? ==> s.ledger == m
    ensures s.reply.Ok? <==>
              && CallerRegistered(m, ownerName, ownerSSN)
              && PropertyKey(propertyId) in m
              && var p := m[PropertyKey(propertyId)];
              && p.Property? && p.owner == UserKey(ownerName, ownerSSN) && MayChangeStatus(p.status)
    ensures s.reply.Ok? ==>
              var p := m[PropertyKey(propertyId)];
              s.ledger == m[PropertyKey(propertyId) := p.(status := propertyStatus)]
  {
    var ownerKey := UserKey(ownerName, ownerSSN);
    var user := ViewUser(m, ownerName, ownerSSN);
    if !(user.Ok? && IsRegistered(user.value)) then Step(Err(NotRegistered), m)
    else
      var requestKey := PropertyKey(propertyId);
      match Lookup(m, requestKey)
      case None => Step(Err(NotFound), m)
      case Some(property) =>
        if !(property.Property? && property.owner == ownerKey) then Step(Err(NotOwner), m)
        else if !MayChangeStatus(property.status) then Step(Err(NotApprovedYet), m)
        else Step(Ok(()), m[requestKey := property.(status := propertyStatus)])
  }

  /** Whether the property under `pk` is a property record listed for sale. */
  predicate ListedForSale(m: Ledger, pk: Key)
    ensures ListedForSale(m, pk) <==> pk in m && StatusField(m[pk]) == Some(OnSale)
  {
    pk in m && m[pk].Property? && m[pk].status == OnSale
  }

  /** `purchaseProperty`. All five guards are decided before the first write, so every rejection
      leaves the ledger as it was. On success the property (status Registered, owner unchanged),
      the buyer (debited) and the seller (credited) are written in this order. */
  function PurchaseProperty(m: Ledger, propertyId: string, buyerName: string, buyerSSN: string): (s: Step<()>)
    ensures !CallerRegistered(m, buyerName, buyerSSN) ==> s.reply == Err(NotRegistered)
    ensures CallerRegistered(m, buyerName, buyerSSN) && PropertyKey(propertyId) !in m ==>
              s.reply == Err(NotFound)
    ensures CallerRegistered(m, buyerName, buyerSSN) && PropertyKey(propertyId) in m ==>
              !ListedForSale(m, PropertyKey(propertyId)) ==> s.reply == Err(NotForSale)
    ensures CallerRegistered(m, buyerName, buyerSSN) && ListedForSale(m, PropertyKey(propertyId)) ==>
              var p := m[PropertyKey(propertyId)];
              && (Coins(m[UserKey(buyerName, buyerSSN)]) < p.price ==> s.reply == Err(InsufficientFunds))
              && (Coins(m[UserKey(buyerName, buyerSSN)]) >= p.price && p.owner !in m ==>
                    s.reply == Err(SellerNotFound))
    ensures s.reply.Err? ==> s.ledger == m
    ensures s.reply.Ok? <==>
              && CallerRegistered(m, buyerName, buyerSSN)
              && ListedForSale(m, PropertyKey(propertyId))
              && var p := m[PropertyKey(propertyId)];
              && Coins(m[UserKey(buyerName, buyerSSN)]) >= p.price
              && p.owner in m
    ensures s.reply.Ok? ==>
              var pk, bk := PropertyKey(propertyId), UserKey(buyerName, buyerSSN);
              var p := m[pk];
              var sk := p.owner;
              s.ledger == m[pk := p.(status := Registered)]
                              [bk := m[bk].(upgradCoins := Some(Coins(m[bk]) - p.price))]
                              [sk := Credit(m[sk], p.price)]
  {
    var buyerKey := UserKey(buyerName, buyerSSN);
    var buyer := ViewUser(m, buyerName, buyerSSN);
    if !(buyer.Ok? && IsRegistered(buyer.value)) then Step(Err(NotRegistered), m)
    else
      var requestKey := PropertyKey(propertyId);
      match Lookup(m, requestKey)
      case None => Step(Err(NotFound), m)
      case Some(property) =>
        if !(property.Property? && property.status == OnSale) then Step(Err(NotForSale), m)
        else if buyer.value.upgradCoins.value < property.price then Step(Err(InsufficientFunds), m)
        else
          var sellerKey := property.owner;
          match FetchUser(m, sellerKey)
          case None => Step(Err(SellerNotFound), m)
          case Some(seller) =>
            var seller' := Credit(seller, property.price);
            var buyer' := buyer.value.(upgradCoins := Some(buyer.value.upgradCoins.value - property.price));
            var property' := property.(status := Registered);
            Step(Ok(()), m[requestKey := property'][buyerKey := buyer'][sellerKey := seller'])
  }
}
