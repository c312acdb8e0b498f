/** On whose behalf a frame of the client is handled. */
module Callers {

  /** The read handler, an upstream writer that made room (of the i-th stream), or the discarding of a
      closed stream's payload. */
  datatype Caller = Reader | Writer(i: nat) | Discard
}
