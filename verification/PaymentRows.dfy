/** The statuses of a payment row. */
module PaymentRows {

  datatype PaymentStatus =
    | Pending | Held | PendingTransfer | TransferFailed | Released | Refunded | Cancelled | Failed
}
