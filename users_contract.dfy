/** The writing operations of chaincode/users.js as methods over the transaction context's stub.
    Each method reads through `GetState`, runs the source's guard chain and then issues the
    source's `putState` calls in the source's order; its postcondition says that the reply and the
    new world state are exactly those the corresponding function of module Users gives for the
    world state before the call. The read-only operations (`viewUser`, `viewProperty`, `fetchUser`,
    `buyUpgradCoins`) are the functions of module Users, applied to `ctx.state`.

    In the source, `rechargeAccount`, `propertyRegistrationRequest`, `updateProperty` and
    `purchaseProperty` call `this.viewUser(name, ssn)` without `ctx`, test `user.startsWith(...)`
    on what is a parsed object, and `purchaseProperty` calls `this.fetchUser(sellerKey)` without
    `ctx`; here these helpers look up the record, which is what they are evidently meant to do. */
module UsersContract {
  import opened Outcomes
  import opened Keys
  import opened Records
  import opened WorldState
  import Users

  method CreateUser(ctx: Stub, name: string, emailID: string, phoneNumber: string, ssn: string, now: Timestamp)
    returns (r: Result<Record>)
    modifies ctx
    ensures Users.Step(r, ctx.state) == Users.CreateUser(old(ctx.state), name, emailID, phoneNumber, ssn, now)
  {
    var userKey := UserKey(name, ssn);
    var user := ctx.GetState(userKey);
    if user.Some? {
      return Err(AlreadyExists);
    }
    var newUserObject := User("user", Profile(name, emailID, phoneNumber, ssn), None, now, now);
    ctx.PutState(userKey, newUserObject);
    return Ok(newUserObject);
  }

  method RequestNewUser(ctx: Stub, name: string, emailID: string, phoneNumber: string, ssn: string, now: Timestamp)
    returns (r: Result<Record>)
    modifies ctx
    ensures Users.Step(r, ctx.state) == Users.RequestNewUser(old(ctx.state), name, emailID, phoneNumber, ssn, now)
  {
    var userKey := UserKey(name, ssn);
    var user := ctx.GetState(userKey);
    if user.None? {
      return Err(NotFound);
    }
    var requestKey := RequestKey(name, ssn);
    var request := ctx.GetState(requestKey);
    if request.Some? {
      return Err(AlreadyExists);
    }
    var newUserRequestObject := Request("request", Profile(name, emailID, phoneNumber, ssn), now, now);
    ctx.PutState(requestKey, newUserRequestObject);
    return Ok(newUserRequestObject);
  }

  method RechargeAccount(ctx: Stub, name: string, ssn: string, bankTransactionID: string)
    returns (r: Result<Record>)
    modifies ctx
    ensures Users.Step(r, ctx.state) == Users.RechargeAccount(old(ctx.state), name, ssn, bankTransactionID)
  {
    var userKey := UserKey(name, ssn);
    var user := Users.ViewUser(ctx.state, name, ssn);
    if user.Err? || !IsRegistered(user.value) {
      return Err(NotRegistered);
    }
    var amount := Users.BuyUpgradCoins(bankTransactionID);
    if amount.Err? {
      return Err(amount.error);
    }
    var userObject := user.value.(upgradCoins := Some(user.value.upgradCoins.value + amount.value));
    ctx.PutState(userKey, userObject);
    return Ok(userObject);
  }

  method PropertyRegistrationRequest(ctx: Stub, propertyId: string, ownerName: string, ownerSSN: string,
                                     propertyPrice: nat, now: Timestamp)
    returns (r: Result<Record>)
    modifies ctx
    ensures Users.Step(r, ctx.state) ==
            Users.PropertyRegistrationRequest(old(ctx.state), propertyId, ownerName, ownerSSN, propertyPrice, now)
  {
    var ownerKey := UserKey(ownerName, ownerSSN);
    var user := Users.ViewUser(ctx.state, ownerName, ownerSSN);
    if user.Err? || !IsRegistered(user.value) {
      return Err(NotRegistered);
    }
    var requestKey := PropertyKey(propertyId);
    var request := ctx.GetState(requestKey);
    if request.Some? {
      return Err(AlreadyExists);
    }
    var newPropertyRegRequestObject :=
      Property("property-registration-request", propertyId, ownerKey, propertyPrice, Pending, now, now);
    ctx.PutState(requestKey, newPropertyRegRequestObject);
    return Ok(newPropertyRegRequestObject);
  }

  method UpdateProperty(ctx: Stub, propertyId: string, ownerName: string, ownerSSN: string, propertyStatus: string)
    returns (r: Result<()>)
    modifies ctx
    ensures Users.Step(r, ctx.state) ==
            Users.UpdateProperty(old(ctx.state), propertyId, ownerName, ownerSSN, propertyStatus)
  {
    var ownerKey := UserKey(ownerName, ownerSSN);
    var user := Users.ViewUser(ctx.state, ownerName, ownerSSN);
    if user.Err? || !IsRegistered(user.value) {
      return Err(NotRegistered);
    }
    var requestKey := PropertyKey(propertyId);
    var property := ctx.GetState(requestKey);
    if property.None? {
      return Err(NotFound);
    }
    var propertyJson := property.value;
    if !(propertyJson.Property? && propertyJson.owner == ownerKey) {
      return Err(NotOwner);
    }
    if !MayChangeStatus(propertyJson.status) {
      return Err(NotApprovedYet);
    }
    propertyJson := propertyJson.(status := propertyStatus);
    ctx.PutState(requestKey, propertyJson);
    return Ok(());
  }

  method PurchaseProperty(ctx: Stub, propertyId: string, buyerName: string, buyerSSN: string)
    returns (r: Result<()>)
    modifies ctx
    ensures Users.Step(r, ctx.state) == Users.PurchaseProperty(old(ctx.state), propertyId, buyerName, buyerSSN)
  {
    var buyerKey := UserKey(buyerName, buyerSSN);
    var buyerView := Users.ViewUser(ctx.state, buyerName, buyerSSN);
    if buyerView.Err? || !IsRegistered(buyerView.value) {
      return Err(NotRegistered);
    }
    var buyer := buyerView.value;
    var requestKey := PropertyKey(propertyId);
    var property := ctx.GetState(requestKey);
    if property.None? {
      return Err(NotFound);
    }
    var propertyJson := property.value;
    if !(propertyJson.Property? && propertyJson.status == OnSale) {
      return Err(NotForSale);
    }
    if buyer.upgradCoins.value < propertyJson.price {
      return Err(InsufficientFunds);
    }
    var sellerKey := propertyJson.owner;
    var sellerFetch := Users.FetchUser(ctx.state, sellerKey);
    if sellerFetch.None? {
      return Err(SellerNotFound);
    }
    // Both copies are taken before any write, so when buyer and seller are the same user the
    // seller's credited copy, written last, is the one that remains.
    var seller := Credit(sellerFetch.value, propertyJson.price);
    buyer := buyer.(upgradCoins := Some(buyer.upgradCoins.value - propertyJson.price));
    propertyJson := propertyJson.(status := Registered);
    ctx.PutState(requestKey, propertyJson);
    ctx.PutState(buyerKey, buyer);
    ctx.PutState(sellerKey, seller);
    return Ok(());
  }
}
