/** The records the chaincode stores as JSON objects, as a closed set of variants. */
module Records {
  import opened Outcomes
  import opened Keys

  /** `ctx.stub.getTxTimestamp()`: an opaque value that only stamps records. */
  type Timestamp = int

  /** The contact fields shared by user and request records. */
  datatype Profile = Profile(name: string, emailID: string, phoneNumber: string, socialSecurityNumber: string)

  datatype Record =
    | User(docType: string, profile: Profile, upgradCoins: Option<nat>, createdAt: Timestamp, updatedAt: Timestamp)
    | Request(docType: string, profile: Profile, createdAt: Timestamp, updatedAt: Timestamp)
    | Property(docType: string, propertyId: string, owner: Key, price: nat, status: string,
               createdAt: Timestamp, updatedAt: Timestamp)

  /** Property statuses: filed but not yet approved, approved, and listed for sale. */
  const Pending: string := ""
  const Registered: string := "registered"
  const OnSale: string := "onSale"

  /** `updateProperty` only changes the status of a property that is registered or on sale. */
  predicate MayChangeStatus(status: string)
    ensures MayChangeStatus(status) <==> status in {Registered, OnSale}
    ensures MayChangeStatus(status) ==> status != Pending
  {
    status == Registered || status == OnSale
  }

  /** The chaincode's test `!user["upgradCoins"]`, negated: a record counts as a registered user
      only when it has a coin balance that is truthy, i.e. present and not 0. */
  predicate IsRegistered(r: Record)
    ensures IsRegistered(r) <==> r.User? && Coins(r) > 0
    ensures r.User? && r.upgradCoins == Some(0) ==> !IsRegistered(r)
  {
    r.User? && r.upgradCoins.Some? && r.upgradCoins.value != 0
  }

  /** The coin balance a record holds, 0 when it holds none. */
  function Coins(r: Record): nat
  {
    if r.User? && r.upgradCoins.Some? then r.upgradCoins.value else 0
  }

  /** `propertyJson['status']`: present only on property records. */
  function StatusField(r: Record): (s: Option<string>)
    ensures s.Some? <==> r.Property?
    ensures r.Property? ==> s.value == r.status
  {
    if r.Property? then Some(r.status) else None
  }

  /** `seller['upgradCoins'] += price`. Only a user record that already holds a balance is credited;
      any other record is written back as it was read. */
  function Credit(r: Record, amount: nat): (r': Record)
    ensures r.User? ==> r'.User? && r' == r.(upgradCoins := r'.upgradCoins) && r'.upgradCoins.Some? == r.upgradCoins.Some?
    ensures !r.User? ==> r' == r
    ensures Coins(r') == if r.User? && r.upgradCoins.Some? then Coins(r) + amount else Coins(r)
  {
    if r.User? && r.upgradCoins.Some? then r.(upgradCoins := Some(r.upgradCoins.value + amount)) else r
  }
}
