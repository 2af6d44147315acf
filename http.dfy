/** The one HTTP fact the core relies on: what `Response.ok` means. */
module Http {
  /** `Response.ok` holds exactly for the 2xx statuses. */
  predicate IsOk(status: nat) {
    200 <= status <= 299
  }
}
