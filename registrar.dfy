/** The registrar's contract (`RegistrarContract` in chaincode/registrar.js). None of its
    operations calls `putState`, so all three are functions of the world state: the ledger after
    any of them is the ledger before. */
module Registrar {
  import opened Outcomes
  import opened Keys
  import opened Records
  import opened WorldState
  import Users

  /** The copy `approveNewUser` returns: the parsed record with `upgradCoins` 0 added (the source
      calls `user.push(data)` on an object; adding the field is the evident intent) and `docType`
      set to "User". A stored request thereby becomes a user-shaped record. A property record has no
      balance field in this model and only has its `docType` changed. */
  function Approved(stored: Record): (r: Record)
    ensures r.docType == "User"
    ensures stored.User? || stored.Request? ==>
              r == User("User", stored.profile, Some(0), stored.createdAt, stored.updatedAt)
    ensures stored.Property? ==>
              r == Property("User", stored.propertyId, stored.owner, stored.price, stored.status,
                            stored.createdAt, stored.updatedAt)
  {
    match stored
    case Property(_, propertyId, owner, price, status, createdAt, updatedAt) =>
      Property("User", propertyId, owner, price, status, createdAt, updatedAt)
    case _ => User("User", stored.profile, Some(0), stored.createdAt, stored.updatedAt)
  }

  /** `approveNewUser`: reads `('propertyreg.User.approve', [name, ssn])` and returns the
      approved copy of what is stored there, or NotFound.  Nothing is written. */
  function ApproveNewUser(m: Ledger, name: string, ssn: string): (r: Result<Record>)
    ensures r.Err? <==> ApproveKey(name, ssn) !in m
    ensures r.Err? ==> r.error == NotFound
    ensures r.Ok? ==> r.value == Approved(m[ApproveKey(name, ssn)])
  {
    match Lookup(m, ApproveKey(name, ssn))
    case Some(user) => Ok(Approved(user))
    case None => Err(NotFound)
  }

  /** `approvePropertyRegistration`: a stub that reads `('propertyreg.Property', [propertyID])`
      and returns the stored record unmodified, or NotFound. Nothing is written. */
  function ApprovePropertyRegistration(m: Ledger, propertyID: string): (r: Result<Record>)
    ensures r.Err? <==> RegistrarPropertyKey(propertyID) !in m
    ensures r.Err? ==> r.error == NotFound
    ensures r.Ok? ==> r.value == m[RegistrarPropertyKey(propertyID)]
  {
    match Lookup(m, RegistrarPropertyKey(propertyID))
    case Some(property) => Ok(property)
    case None => Err(NotFound)
  }

  /** The registrar's `viewProperty`. The source calls `this.viewUser`, which RegistrarContract
      does not define; the model looks up the user record, as evidently intended. */
  function ViewProperty(m: Ledger, propertyId: string, ownerName: string, ownerSSN: string)
    : (r: Result<Option<string>>)
    ensures !(UserKey(ownerName, ownerSSN) in m && IsRegistered(m[UserKey(ownerName, ownerSSN)])) ==>
              r == Err(NotRegistered)
    ensures UserKey(ownerName, ownerSSN) in m && IsRegistered(m[UserKey(ownerName, ownerSSN)]) ==>
              if PropertyKey(propertyId) in m then r == Ok(StatusField(m[PropertyKey(propertyId)]))
              else r == Err(NotFound)
  {
    var user := Lookup(m, UserKey(ownerName, ownerSSN));
    if !(user.Some? && IsRegistered(user.value)) then Err(NotRegistered)
    else
      var property := Lookup(m, PropertyKey(propertyId));
      if property.Some? then Ok(StatusField(property.value)) else Err(NotFound)
  }

  /** The registrar's and the users' `viewProperty` give the same reply on every ledger. */
  lemma ViewPropertyAgrees(m: Ledger, propertyId: string, ownerName: string, ownerSSN: string)
    ensures ViewProperty(m, propertyId, ownerName, ownerSSN) == Users.ViewProperty(m, propertyId, ownerName, ownerSSN)
  {
  }

  /** A user approved by `approveNewUser` has balance 0, which the registration test
      `!user["upgradCoins"]` treats as not registered. */
  lemma ApprovedUserIsNotRegistered(m: Ledger, name: string, ssn: string)
    requires ApproveKey(name, ssn) in m && !m[ApproveKey(name, ssn)].Property?
    ensures ApproveNewUser(m, name, ssn).Ok?
    ensures !IsRegistered(ApproveNewUser(m, name, ssn).value)
  {
  }
}
