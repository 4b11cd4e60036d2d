/** Redis Stream ids: a millisecond time and a sequence number, ordered as pairs. */
module StreamIds {
  datatype StreamId = StreamId(ms: nat, sequence: nat)

  predicate Before(a: StreamId, b: StreamId) {
    a.ms < b.ms || (a.ms == b.ms && a.sequence < b.sequence)
  }

  predicate AtMost(a: StreamId, b: StreamId) {
    a == b || Before(a, b)
  }

  /** Redis hands out ids in strictly increasing order. */
  ghost predicate Ascending(ids: seq<StreamId>) {
    forall i, j :: 0 <= i < j < |ids| ==> Before(ids[i], ids[j])
  }
}
