/** Values that several components share. */
module Common {
  datatype Option<+T> = None | Some(value: T)

  /** The identity of a runtime object: its path and the configuration snapshot that created it. */
  datatype Rid = Rid(path: string, generation: nat)

  /** Limits of the legacy SSE bridge of one endpoint. */
  datatype BridgeConfig = BridgeConfig(
    queueCapacity: nat, backpressureTimeout: real, sessionTtl: real, maxSessions: nat)

  lemma {:induction false} SubsetSize<T>(a: set<T>, b: set<T>)
    requires a <= b
    ensures |a| <= |b|
  {
    if a != {} {
      var x :| x in a;
      SubsetSize(a - {x}, b - {x});
    }
  }
}
