/** How a call to the API server ends: a failed call may still have taken effect there. */
module ApiCalls {
  datatype Outcome = Ok | Fails(applied: bool)

  predicate Effective(o: Outcome) {
    o.Ok? || o.applied
  }
}
