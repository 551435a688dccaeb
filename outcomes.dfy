/** Results of the contract operations, distinguished by kind rather than by message text. */
module Outcomes {

  datatype Option<+T> = None | Some(value: T)

  /** Why an operation was rejected. Each kind corresponds to one early `return` of a message
      (or of `false`) in the chaincode; the wording of the messages is not modelled. */
  datatype Error =
    | AlreadyExists          // the key to be created already holds a record
    | NotFound               // the record the operation needs is absent
    | NotRegistered          // the caller's user record is absent or has no (truthy) coin balance
    | InvalidTransactionId   // the bank transaction id is not in the coin table
    | NotOwner               // the property's stored owner is not the caller's user key
    | NotApprovedYet         // the property's status is neither "registered" nor "onSale"
    | NotForSale             // the property's status is not "onSale"
    | InsufficientFunds      // the buyer's balance is below the price
    | SellerNotFound         // the property's owner key holds no record

  datatype Result<+T> = Ok(value: T) | Err(error: Error)
}
