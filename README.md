# Property registration chaincode, modelled in Dafny

This project models the business logic of a Hyperledger Fabric chaincode for property
registration: the users' contract (`chaincode/users.js`) and the registrar's contract
(`chaincode/registrar.js`). The world state is a finite map from composite key to record. Three
kinds of record live in it: users, user-registration requests and properties. Each contract
operation derives one or more keys, runs a chain of guards (exists, registered, owner, status,
funds) and then writes a small number of records.

Layout:

- `outcomes.dfy` (`Outcomes`): `Option`, `Result` and the kinds of rejection.
- `keys.dfy` (`Keys`): `Key(tag, fields)` stands for `createCompositeKey`. Injectivity holds by
  construction. The five tags the code uses are constants here.
- `records.dfy` (`Records`): user, request and property records. `IsRegistered` is the code's
  test `!user["upgradCoins"]`, negated, so a balance of 0 counts as not registered.
  `Credit` is the seller-side `+=`.
- `world_state.dfy` (`WorldState`): the ledger map, `Lookup` (`getState`), the frame predicate
  `ChangesOnly`, the total `TotalCoins` of all balances, and the class `Stub`. `Stub` holds the
  map in a field and offers `GetState` and `PutState`.
- `users.dfy` (`Users`): the read-only operations as functions. Each writing operation is also a
  function here, giving the reply and the ledger after the call. Its contract states the guard
  chain, "no write on failure" and the exact new state.
- `users_contract.dfy` (`UsersContract`): the writing operations as methods on a `Stub`. They
  issue the code's `getState`/`putState` calls in the code's order. Each is proved to produce
  exactly what the `Users` function gives.
- `registrar.dfy` (`Registrar`): the registrar's three operations. They are functions, because
  none of them writes.
- `balances.dfy` (`Balances`): what a recharge and a purchase do to balances and to the ledger's
  total.
- `lifecycle.dfy` (`Lifecycle`): a `Call` datatype and `Run` over sequences of calls. It holds
  the invariants every call preserves.
- `scenarios.dfy` (`Scenarios`): one purchase on a concrete world state.

What the proofs show about the code as written:

- In the model, no operation ever writes a coin balance to a user who has none (for the code this
  holds on every ledger reachable from the empty world state; see `Records.Credit` under
  "## Left out" for seeded ledgers). `createUser` writes none.
  `rechargeAccount`, `propertyRegistrationRequest`, `updateProperty` and `purchaseProperty` all
  require an already registered user. The registrar's `approveNewUser` never calls `putState`.
  So from an empty world state nobody ever becomes registered, and only `createUser` and
  `requestNewUser` can succeed (`Lifecycle.ReachableLedgersAreInert`).
- Even if `approveNewUser` did write, the balance it sets is 0. The registration test treats 0
  as "not registered" (`Registrar.ApprovedUserIsNotRegistered`).
- `purchaseProperty` never changes a property's owner. A property record keeps its id, owner
  and price through every sequence of calls (`Lifecycle.RunKeepsProperty`).
- A status changes only from "registered" or "onSale", so a property filed with status `''`
  keeps that status forever.
- When buyer and seller are the same user, the seller's credited copy is written last. So a
  purchase from oneself creates `price` coins (`Balances.PurchaseTotal`).
- A seller record without a balance is not credited, and the price then leaves the ledger.

The workflow these contracts are meant to implement (registrar approval of users and properties,
transfer of ownership on purchase) differs from what the code does in several places. The model
follows the code:

- Approving a user is meant to write a balance of 0 to the account and the request. The code
  writes nothing, and reads a key with tag `propertyreg.User.approve` that nothing writes.
- Approving a property is meant to set its status to registered. The code is a stub that reads
  `propertyreg.Property`, a tag no operation writes, and returns what it finds.
- A purchase is meant to reassign the owner. The code does not.
- A price is meant to be positive. The code accepts any price, and so does the model (`nat`).
- An account is meant to count as approved when its balance field is present. The code asks
  whether the balance is truthy, so 0 counts as not approved.

Where the code cannot run as written, the model follows its evident intent. A comment at each
such place in the Dafny says so:

- `viewUser`/`fetchUser` are called without `ctx`.
- `startsWith` is called on a parsed object.
- `buyUpgradCoins` returns `mapperTxnIdNUpgradCoins.bankTransactionID`.
- `user.push` is called on an object.
- The registrar's `viewProperty` calls a `viewUser` that `RegistrarContract` does not define.

The guards `user.startsWith("ERROR") && user.startsWith("Asset")` can never both hold. So an
absent user reaches the `!user["upgradCoins"]` test, and gets the same rejection
(`NotRegistered`) as an unregistered one.

## Model

| member | source | states |
|---|---|---|
| Keys.TagsDistinct | chaincode/users.js:54-259 | the key tags for users, requests, properties, approvals and registrar properties are pairwise distinct, so keys of different kinds never collide |
| Keys.UserKey | chaincode/users.js:54 | the user key carries the user tag and gives back name and social-security number, in that order |
| Keys.RequestKey | chaincode/users.js:105 | the request key carries the request tag and gives back name and social-security number |
| Keys.PropertyKey | chaincode/users.js:259 | the property key carries the property tag and gives back the property id |
| Keys.ApproveKey | chaincode/registrar.js:35 | the key `approveNewUser` reads carries the tag `propertyreg.User.approve` and gives back name and social-security number |
| Keys.RegistrarPropertyKey | chaincode/registrar.js:58 | the key `approvePropertyRegistration` reads carries the tag `propertyreg.Property` and gives back the property id |
| Keys.UserKeyInjective | chaincode/users.js:54 | two user keys are equal exactly when name and social-security number are equal |
| Keys.PropertyKeyInjective | chaincode/users.js:259 | two property keys are equal exactly when the property ids are equal |
| Records.StatusField | chaincode/users.js:337-339 | `propertyJson['status']` is present exactly on property records and is their status |
| Records.Credit | chaincode/users.js:485 | crediting adds the amount to a user record that holds a balance and changes no other field; any other record is returned as it was |
| Records.IsRegistered | chaincode/users.js:163 | the test `!user["upgradCoins"]`, negated: a record is registered exactly when it is a user record with a balance that is present and not 0 |
| Records.MayChangeStatus | chaincode/users.js:398 | a status may be changed exactly when it is "registered" or "onSale", never when it is the pending `''` |
| WorldState.Lookup | chaincode/users.js:58-60 | `getState` yields a record exactly when the key is present, and then the stored one |
| WorldState.Stub.GetState | chaincode/users.js:58 | reading returns what the world state holds under the key |
| WorldState.Stub.PutState | chaincode/users.js:76 | writing upserts exactly the one key |
| Users.ViewUser | chaincode/users.js:202-220 | returns the record under `('propertyreg.user',[name,ssn])` exactly when present, otherwise NotFound |
| Users.FetchUser | chaincode/users.js:538-552 | returns the record under the given key exactly when present, otherwise None (`'false'`) |
| Users.BuyUpgradCoins | chaincode/users.js:14-18 | upg100 buys 100, upg500 buys 500, upg1000 buys 1000, any other id is InvalidTransactionId; every amount is positive |
| Users.CallerRegistered | chaincode/users.js:154-171 | `viewUser` followed by the registration test: the user key holds a user record with a positive balance |
| Users.ListedForSale | chaincode/users.js:464-468 | the property key holds a record whose status field is "onSale" |
| Users.ViewProperty | chaincode/users.js:304-345 | rejects an absent or unregistered caller, then NotFound for an absent property, otherwise returns only the property's status |
| Users.CreateUser | chaincode/users.js:50-80 | rejects exactly when the user key holds a record, writing nothing; otherwise writes only that key, with a user record that has no balance and so is not registered |
| Users.RequestNewUser | chaincode/users.js:89-140 | NotFound exactly when the user is absent, AlreadyExists exactly when a request exists, no write on either; succeeds exactly when the user exists and no request does, and then writes only a new request record and leaves the user record as it was |
| Users.RechargeAccount | chaincode/users.js:148-193 | NotRegistered exactly for an absent or unregistered user, InvalidTransactionId exactly for an unknown id, no write on either; succeeds exactly for a registered user with a known id, and then only the balance of that one record changes, growing by the table amount |
| Users.PropertyRegistrationRequest | chaincode/users.js:230-291 | NotRegistered unless the owner is registered, AlreadyExists exactly when the property key is taken, no write on either; succeeds exactly for a registered owner and an unused id, and then writes one new property record with status `''`, owner = the owner's user key and the given price |
| Users.UpdateProperty | chaincode/users.js:353-422 | NotRegistered, NotFound, NotOwner and NotApprovedYet in the code's order, none of which writes; succeeds exactly when the caller is registered and owns a registered or listed property, and then only that property's status changes, to the value supplied |
| Users.PurchaseProperty | chaincode/users.js:431-517 | NotRegistered, NotFound, NotForSale, InsufficientFunds (balance below price; equal is accepted) and SellerNotFound, all decided before any write; succeeds exactly when all five guards pass, a balance equal to the price included, and then the property (status registered, owner kept), the debited buyer and the credited seller are written in that order and nothing else changes |
| UsersContract.CreateUser | chaincode/users.js:50-80 | the method's reply and new world state are those of `Users.CreateUser` on the world state before the call |
| UsersContract.RequestNewUser | chaincode/users.js:89-140 | the method's reply and new world state are those of `Users.RequestNewUser` |
| UsersContract.RechargeAccount | chaincode/users.js:148-193 | the method's reply and new world state are those of `Users.RechargeAccount` |
| UsersContract.PropertyRegistrationRequest | chaincode/users.js:230-291 | the method's reply and new world state are those of `Users.PropertyRegistrationRequest` |
| UsersContract.UpdateProperty | chaincode/users.js:353-422 | the method's reply and new world state are those of `Users.UpdateProperty` |
| UsersContract.PurchaseProperty | chaincode/users.js:431-517 | the method's three writes, in the code's order, give the reply and world state of `Users.PurchaseProperty` |
| Registrar.Approved | chaincode/registrar.js:40-47 | the returned copy has docType "User"; a stored user or request becomes a user record with balance 0 and the same profile and timestamps |
| Registrar.ApproveNewUser | chaincode/registrar.js:34-51 | NotFound exactly when `('propertyreg.User.approve',[name,ssn])` is empty, otherwise the approved copy of the stored record; a function, so the ledger is unchanged |
| Registrar.ApprovePropertyRegistration | chaincode/registrar.js:57-71 | NotFound exactly when `('propertyreg.Property',[propertyID])` is empty, otherwise the stored record unmodified; the ledger is unchanged |
| Registrar.ViewProperty | chaincode/registrar.js:82-123 | NotRegistered for an absent or unregistered caller, then NotFound for an absent property, otherwise only the property's status |
| Registrar.ViewPropertyAgrees | chaincode/registrar.js:82-122 | the registrar's `viewProperty` gives the same reply as the users' `viewProperty` on every ledger |
| Registrar.ApprovedUserIsNotRegistered | chaincode/registrar.js:41-45 | a user or request approved by `approveNewUser` has balance 0 and so fails the registration test |
| Balances.RechargeAddsToTotal | chaincode/users.js:184-189 | a successful recharge adds exactly the table amount to the total balance held in the ledger |
| Balances.PurchaseMovesPrice | chaincode/users.js:485-505 | on success only the property, buyer and seller keys change; the buyer had at least the price and loses it, a seller with a balance gains it, and the property ends registered with its owner unchanged; when buyer = seller the credit remains |
| Balances.PurchaseTotal | chaincode/users.js:485-505 | a purchase between two users with balances conserves the ledger's total; a self-purchase adds the price; a seller without a balance makes the price disappear |
| Balances.SpendingWholeBalanceUnregisters | chaincode/users.js:471-486 | a buyer whose balance equals the price of a property bought from another owner is accepted and is left with 0 coins, which no longer counts as registered (buying from oneself leaves twice the price, see PurchaseMovesPrice) |
| Balances.ZeroBalanceIsRejected | chaincode/users.js:163-165 | a user record with balance 0 gets NotRegistered, with no write, from rechargeAccount, propertyRegistrationRequest, updateProperty and purchaseProperty |
| Lifecycle.Perform | chaincode/users.js:50-517 | a rejected call of any writing operation leaves the world state unchanged |
| Lifecycle.PerformKeepsProperty | chaincode/users.js:399-487 | after any call a stored property is still there with the same id, owner and price, and its status has changed only if it was "registered" or "onSale" |
| Lifecycle.RunKeepsProperty | chaincode/users.js:399-487 | over any sequence of calls a property keeps id, owner and price, and a property not registered or on sale keeps its status |
| Lifecycle.PerformKeepsOwnersAreUserKeys | chaincode/users.js:274 | if every property's owner is a user key, this stays true after any call |
| Lifecycle.RunKeepsOwnersAreUserKeys | chaincode/users.js:274 | the same over any sequence of calls |
| Lifecycle.PerformKeepsOnlyAccounts | chaincode/users.js:163-253 | on a ledger of unregistered users and requests only createUser and requestNewUser succeed, and the ledger stays of that shape |
| Lifecycle.RunKeepsOnlyAccounts | chaincode/users.js:163-253 | the same over any sequence of calls |
| Lifecycle.ReachableLedgersAreInert | chaincode/registrar.js:34-71 | from the empty world state, after any calls, only createUser and requestNewUser can succeed, both approval functions return NotFound, and no coins exist |
| Scenarios.BobBuysFromAlice | chaincode/users.js:485-508 | a concrete purchase at price 300: buyer 1000 → 700, seller 200 → 500, property registered with the seller still the owner, and a second purchase is refused with no write |
| Scenarios.AliceCannotAffordOwnProperty | chaincode/users.js:471-474 | a buyer with balance below the price is refused with InsufficientFunds and nothing is written |

## Left out

- Fabric plumbing is not modelled: the `Contract` base class, the constructors, `instantiate`,
  `console.log` and the module wiring in `chaincode/index.js`. None of it holds logic.
- `createCompositeKey` is modelled by the abstract `Key` datatype. Its byte format is a library
  matter.
- JSON and `Buffer` are not modelled. Records are datatypes, so there is no serialiser and no
  decode error.
- `getTxTimestamp` becomes a parameter `now`. It only stamps records.
- Errors raised by the ledger itself are not modelled: the `.catch(console.log)` handlers and the
  `ERROR :` branches of `viewUser` and `fetchUser`. Transaction atomicity, MVCC retries and
  endorsement are also out, as concurrency and consensus.
- Caller identity and registrar authorisation are absent: the code has no such checks.
- The wording of the reply messages is not modelled. `rechargeAccount`'s `false` for an
  unregistered caller is `NotRegistered`. Replies are distinguished by kind only.
- JavaScript typing accidents are not modelled. Prices and balances are `nat`. The code lets
  prices arrive as strings, so `+=` could concatenate.
- The async `buyUpgradCoins` returns a Promise, which is not modelled. Lookups of inherited
  property names such as "toString" are truthy in JavaScript. They still lead to no write, and
  the model rejects them as unknown ids.
- An absent seller in `purchaseProperty` is modelled as `SellerNotFound` with no write. In the
  source, `fetchUser` returns the string `'false'`, so the test `seller.length == 0` does not
  catch this case. The strict-mode `seller['upgradCoins'] += …` on that string then throws before
  the first `putState`.
- Registrar.ApproveNewUser and Registrar.ApprovePropertyRegistration: an empty key gives
  NotFound. In the source, the empty buffer that `getState` returns passes the test
  `if (userBuffer)`, so `JSON.parse` of it throws. Either way nothing is written; the model
  returns the not-exist result the code evidently intends.
- Records.Credit: a seller record without a balance, or one that is not a user record, is written
  back unchanged by the model. In JavaScript `undefined + price` is `NaN`, which is stored as
  `null`. A later credit of a `null` balance would give a number. The model does not follow that
  two-step path.
- Registrar.Approved: on a property record it sets only `docType`. The model's property variant
  has no balance field, so the `upgradCoins: 0` the code adds is dropped.
