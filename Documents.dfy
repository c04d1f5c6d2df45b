/** Representation choices shared by every collection of the backing document store. */
module Documents {

  /** A document identifier. ObjectId values are abstract here: they are only compared for equality. */
  type ObjectId = nat

  /** A point in time, as the milliseconds a `Date` holds. */
  type Timestamp = int
}
