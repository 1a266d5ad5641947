/** Who a request speaks for: both APIs key callers and records by email address. */
module Identity {
  /** An email address, compared as written. */
  type Email = string
}
