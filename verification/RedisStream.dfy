/** The result stream and its deduplicating append script. */
module RedisStream {
  import opened Events
  import opened StreamIds

  datatype Entry = Entry(id: StreamId, event: EventId, payload: ScoringResult)

  /** The append history of the stream, and for each published event the id it was given. */
  datatype Redis = Redis(stream: seq<Entry>, dedup: map<EventId, StreamId>)

  const EMPTY_REDIS := Redis([], map[])

  /** An id the server may assign next. */
  ghost predicate NextId(stream: seq<Entry>, id: StreamId) {
    forall i :: 0 <= i < |stream| ==> Before(stream[i].id, id)
  }

  function PublishOnce(r: Redis, event: EventId, payload: ScoringResult, id: StreamId): Redis {
    if event in r.dedup then r
    else Redis(r.stream + [Entry(id, event, payload)], r.dedup[event := id])
  }

  /** Each published event has exactly one entry, under the id its key remembers. */
  ghost predicate OncePerEvent(r: Redis) {
    && (forall i, j :: 0 <= i < j < |r.stream| ==> Before(r.stream[i].id, r.stream[j].id))
    && (forall i, j :: 0 <= i < j < |r.stream| ==> r.stream[i].event != r.stream[j].event)
    && (forall i :: 0 <= i < |r.stream| ==>
          r.stream[i].event in r.dedup && r.dedup[r.stream[i].event] == r.stream[i].id)
    && (forall e :: e in r.dedup ==> HasEntry(r.stream, e, r.dedup[e]))
  }

  ghost predicate HasEntry(stream: seq<Entry>, event: EventId, id: StreamId) {
    exists i :: 0 <= i < |stream| && stream[i].event == event && stream[i].id == id
  }

  lemma PublishKeepsOnce(r: Redis, event: EventId, payload: ScoringResult, id: StreamId)
    requires OncePerEvent(r) && NextId(r.stream, id)
    ensures OncePerEvent(PublishOnce(r, event, payload, id))
    ensures event in PublishOnce(r, event, payload, id).dedup
  {
    var q := PublishOnce(r, event, payload, id);
    if event !in r.dedup {
      forall e | e in q.dedup
        ensures HasEntry(q.stream, e, q.dedup[e])
      {
        if e == event {
          assert q.stream[|r.stream|].event == event;
        } else {
          assert HasEntry(r.stream, e, r.dedup[e]);
          var i :| 0 <= i < |r.stream| && r.stream[i].event == e && r.stream[i].id == r.dedup[e];
          assert q.stream[i] == r.stream[i];
        }
      }
    }
  }

  /** However often the script is retried, with whatever payload and whatever id the server
      would have assigned, the history grows by at most one entry and every call returns the
      id of that entry. */
  lemma RetryReturnsTheFirstId(r: Redis, event: EventId, payload: ScoringResult, id: StreamId,
                               later: ScoringResult, laterId: StreamId)
    requires OncePerEvent(r) && NextId(r.stream, id)
    ensures var once := PublishOnce(r, event, payload, id);
            var twice := PublishOnce(once, event, later, laterId);
            && twice == once
            && twice.dedup[event] == (if event in r.dedup then r.dedup[event] else id)
            && HasEntry(twice.stream, event, twice.dedup[event])
            && |twice.stream| == |r.stream| + (if event in r.dedup then 0 else 1)
  {
    PublishKeepsOnce(r, event, payload, id);
  }

  class Server {
    var stream: seq<Entry>
    var dedup: map<EventId, StreamId>

    constructor ()
      ensures Contents() == EMPTY_REDIS
    {
      stream, dedup := [], map[];
    }

    function Contents(): Redis
      reads this
    {
      Redis(stream, dedup)
    }

    /** The script: read the dedup key; if it is there return it, else append and set it. */
    method PublishResult(event: EventId, payload: ScoringResult, serverId: StreamId) returns (streamId: StreamId)
      requires NextId(stream, serverId)
      modifies this
      ensures Contents() == PublishOnce(old(Contents()), event, payload, serverId)
      ensures event in dedup && streamId == dedup[event]
      ensures old(OncePerEvent(Contents())) ==> OncePerEvent(Contents()) && HasEntry(stream, event, streamId)
    {
      ghost var before := Contents();
      if event in dedup {
        streamId := dedup[event];
      } else {
        streamId := serverId;
        stream := stream + [Entry(streamId, event, payload)];
        dedup := dedup[event := streamId];
      }
      if OncePerEvent(before) {
        PublishKeepsOnce(before, event, payload, serverId);
      }
    }
  }
}
