/**
 * Outcomes of single calls into the distributed store (Redis). Every call the core makes into the
 * store is given one of these as a parameter, so the model is deterministic once the outcome of
 * each store call is fixed.
 */
module Redis {

  /** A read, increment or delete either answers or raises. */
  datatype StoreCall = Answers | Raises

  /** `SET key value ttl` answers true, answers false, or raises. */
  datatype SetReply = SetTrue | SetFalse | SetRaises

  /** `EXPIRE key ttl` answers true, answers false, or raises. */
  datatype ExpireReply = ExpireTrue | ExpireFalse | ExpireRaises

  /** The error a caller sees when a store call raises and nothing resumes it. */
  datatype StoreFailure = StoreError
}
