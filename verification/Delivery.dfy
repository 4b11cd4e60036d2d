/** How one browser follows the result stream: history replay, then a bounded live queue fed
    by the gateway's tail task, over any number of connections to any gateways. Appends, the
    tail, the sender and the browser take their steps in any order. */
module Delivery {
  import opened StreamIds
  import opened Options

  /** What the history read returns: the oldest entries after the cursor, or without a cursor
      the most recent ones; at most `limit` of them. */
  function Start(stream: seq<StreamId>, cursor: StreamId): nat {
    if stream != [] && AtMost(stream[0], cursor) then 1 + Start(stream[1..], cursor) else 0
  }

  lemma {:induction false} StartSplits(stream: seq<StreamId>, cursor: StreamId)
    requires Ascending(stream)
    ensures Start(stream, cursor) <= |stream|
    ensures forall i :: 0 <= i < |stream| ==> (i < Start(stream, cursor) <==> AtMost(stream[i], cursor))
  {
    if stream != [] && AtMost(stream[0], cursor) {
      StartSplits(stream[1..], cursor);
    }
  }

  lemma {:induction false} StartFound(stream: seq<StreamId>, cursor: StreamId, from: nat)
    requires from <= |stream|
    requires forall i :: 0 <= i < from ==> AtMost(stream[i], cursor)
    requires from < |stream| ==> !AtMost(stream[from], cursor)
    ensures Start(stream, cursor) == from
  {
    if from > 0 {
      StartFound(stream[1..], cursor, from - 1);
    }
  }

  function HistoryFrom(stream: seq<StreamId>, cursor: Option<StreamId>, limit: nat): nat {
    match cursor
    case Some(id) => Start(stream, id)
    case None => if |stream| <= limit then 0 else |stream| - limit
  }

  function HistoryTo(stream: seq<StreamId>, from: nat, limit: nat): nat {
    if from + limit <= |stream| then from + limit else |stream|
  }

  // ---- one connection ----

  datatype Phase = Registered | Replaying(rows: seq<StreamId>) | Live

  /** `last` is the sender's cursor. The rest of the last line is history: the cursor the
      browser asked with, where the tail stood at registration, the stream position the
      replay began at and the one just past the last entry that arrived, the position of the
      queue's front, what arrived, and what was given up on a send timeout. */
  datatype Connection = Connection(
    phase: Phase, last: Option<StreamId>, queue: seq<StreamId>, closed: bool, tail: nat,
    asked: Option<StreamId>, begin: nat, from: nat, at: nat, head: nat, sent: seq<StreamId>, dropped: set<nat>)

  /** `cursor` is the id the browser will ask with; `received` all it was ever sent. The rest
      is history: the stream position at which the first delivery began; whether an entry
      arrived on a connection that had lost an earlier one; whether one arrived on a connection
      that asked with another cursor than the last entry received; whether some send timed
      out; and whether some history read was too short. */
  datatype Session = Session(
    stream: seq<StreamId>,
    connection: Option<Connection>,
    cursor: Option<StreamId>,
    received: seq<StreamId>,
    origin: nat,
    gap: bool,
    stale: bool,
    timedOut: bool,
    cut: bool)

  function NewSession(cursor: Option<StreamId>): Session {
    Session([], None, cursor, [], 0, false, false, false, false)
  }

  datatype Fate =
    | Delivered
    | TimedOut(arrived: bool)
    | Ended(arrived: bool)

  datatype Step =
    | Append(id: StreamId)
    | Connect(tail: nat)
    | Broadcast
    | ReadHistory
    | SendReplayed(fate: Fate)
    | GoLive
    | SendLive(fate: Fate)
    | Heartbeat
    | Disconnect

  datatype Settings = Settings(replayLimit: nat, queueSize: nat)

  ghost predicate MayStep(s: Session, step: Step) {
    match step
    case Append(id) => forall i :: 0 <= i < |s.stream| ==> Before(s.stream[i], id)
    case Connect(tail) => s.connection.None? && tail <= |s.stream|
    case Broadcast => s.connection.Some? && !s.connection.value.closed && s.connection.value.tail < |s.stream|
    case ReadHistory => s.connection.Some? && s.connection.value.phase.Registered?
    case SendReplayed(fate) =>
      && s.connection.Some? && s.connection.value.phase.Replaying? && s.connection.value.phase.rows != []
      && !fate.TimedOut?
    case GoLive => s.connection.Some? && s.connection.value.phase == Replaying([])
    case SendLive(_) => s.connection.Some? && s.connection.value.phase.Live? && s.connection.value.queue != []
    case Heartbeat => s.connection.Some? && s.connection.value.phase.Live?
    case Disconnect => s.connection.Some?
  }

  /** The tail puts an entry into a client's queue; a client whose queue is full is closed. */
  function Offer<T>(queue: seq<T>, closed: bool, size: nat, item: T): (seq<T>, bool) {
    if |queue| < size then (queue + [item], closed) else (queue, true)
  }

  predicate Filtered(last: Option<StreamId>, item: StreamId) {
    last.Some? && AtMost(item, last.value)
  }

  /** Nothing arrived after an entry given up on a send timeout, and the history read reached
      where the live queue begins, or no live entry arrived. */
  predicate NothingLost(g: Settings, c: Connection) {
    && (forall k :: k in c.dropped ==> c.at <= k)
    && (c.begin <= c.from + g.replayLimit || c.at <= c.from + g.replayLimit)
  }

  /** The browser asked with another cursor than the last entry it has received. */
  predicate AskedOtherwise(received: seq<StreamId>, c: Connection) {
    received != [] && c.asked != Some(received[|received| - 1])
  }

  /** The browser takes an entry and remembers its id. */
  function Arrive(g: Settings, s: Session, c: Connection, item: StreamId, position: nat): Session {
    var d := c.(sent := c.sent + [item], at := position + 1);
    s.(connection := Some(d),
       cursor := Some(item),
       received := s.received + [item],
       origin := if s.received == [] then c.from else s.origin,
       gap := s.gap || !NothingLost(g, d),
       stale := s.stale || (c.sent == [] && AskedOtherwise(s.received, c)))
  }

  function Take(c: Connection): Connection
    requires c.queue != []
  {
    c.(queue := c.queue[1..], head := c.head + 1)
  }

  function Do(g: Settings, s: Session, step: Step): Session
    requires MayStep(s, step)
  {
    match step
    case Append(id) => s.(stream := s.stream + [id])
    case Connect(tail) =>
      s.(connection := Some(Connection(Registered, s.cursor, [], false, tail, s.cursor, tail, 0, 0, tail, [], {})))
    case Broadcast =>
      var c := s.connection.value;
      var (queue, closed) := Offer(c.queue, c.closed, g.queueSize, s.stream[c.tail]);
      s.(connection := Some(c.(queue := queue, closed := closed, tail := c.tail + 1)))
    case ReadHistory =>
      var c := s.connection.value;
      var from := HistoryFrom(s.stream, c.last, g.replayLimit);
      var to := HistoryTo(s.stream, from, g.replayLimit);
      var rows := if from <= to <= |s.stream| then s.stream[from..to] else [];
      s.(connection := Some(c.(phase := Replaying(rows), from := from, at := from)),
         cut := s.cut || c.begin > from + g.replayLimit)
    case SendReplayed(fate) =>
      var c := s.connection.value;
      var item := c.phase.rows[0];
      (match fate
       case Delivered => Arrive(g, s, c.(phase := Replaying(c.phase.rows[1..]), last := Some(item)), item, c.at)
       case TimedOut(_) => s
       case Ended(arrived) => Close(if arrived then Arrive(g, s, c, item, c.at) else s))
    case GoLive => s.(connection := Some(s.connection.value.(phase := Live)))
    case SendLive(fate) =>
      var c := s.connection.value;
      var item := c.queue[0];
      if Filtered(c.last, item) then s.(connection := Some(Skip(c)))
      else
        (match fate
         case Delivered => Arrive(g, s, Take(c).(last := Some(item)), item, c.head)
         case TimedOut(arrived) =>
           var late := s.(timedOut := true);
           if arrived then Arrive(g, late, Take(c), item, c.head)
           else late.(connection := Some(Take(c).(dropped := c.dropped + {c.head})))
         case Ended(arrived) => Close(if arrived then Arrive(g, s, Take(c), item, c.head) else s))
    case Heartbeat => if s.connection.value.last.Some? then s.(cursor := s.connection.value.last) else s
    case Disconnect => Close(s)
  }

  function Close(s: Session): Session {
    s.(connection := None)
  }

  /** An entry at or below the cursor is passed over; one that is not in the history either
      (the cursor lies beyond the stream) also moves the start of the delivery. */
  function Skip(c: Connection): Connection
    requires c.queue != []
  {
    if c.head < c.at then Take(c) else Take(c).(from := c.head + 1, at := c.head + 1)
  }

  ghost predicate Next(g: Settings, s: Session, s': Session) {
    exists step :: MayStep(s, step) && s' == Do(g, s, step)
  }

  /** A browser that starts with the given cursor. */
  ghost predicate IsRun(g: Settings, cursor: Option<StreamId>, run: seq<Session>) {
    && run != [] && run[0] == NewSession(cursor)
    && forall i :: 0 <= i < |run| - 1 ==> Next(g, run[i], run[i + 1])
  }

  // ---- what one connection keeps ----

  /** Never sent on a connection: given up on a timeout, or beyond a history read that was
      too short to reach where the live queue begins. */
  ghost predicate Lost(g: Settings, c: Connection, k: nat) {
    k in c.dropped || c.from + g.replayLimit <= k < c.begin
  }

  ghost function Picked(g: Settings, stream: seq<StreamId>, c: Connection, to: nat): seq<StreamId>
    requires to <= |stream|
  {
    if to == 0 || to <= c.from then []
    else Picked(g, stream, c, to - 1) + (if Lost(g, c, to - 1) then [] else [stream[to - 1]])
  }

  ghost predicate Caught(stream: seq<StreamId>, c: Connection)
    requires c.at <= |stream|
  {
    c.last == if c.at <= c.from then c.asked else Some(stream[c.at - 1])
  }

  ghost predicate QueueInv(stream: seq<StreamId>, c: Connection) {
    && c.begin <= c.head && c.head + |c.queue| <= c.tail <= |stream|
    && (forall i :: 0 <= i < |c.queue| ==> c.queue[i] == stream[c.head + i])
    && (!c.closed ==> c.head + |c.queue| == c.tail)
    && forall k :: k in c.dropped ==> k < c.head
  }

  ghost predicate StartInv(stream: seq<StreamId>, c: Connection) {
    && c.from <= c.at <= |stream|
    && (c.asked.Some? ==>
          && (forall i :: 0 <= i < c.from ==> AtMost(stream[i], c.asked.value))
          && (forall i :: c.from <= i < c.at ==> Before(c.asked.value, stream[i])))
  }

  ghost predicate RowsFollow(stream: seq<StreamId>, rows: seq<StreamId>, at: nat, asked: Option<StreamId>) {
    && at + |rows| <= |stream|
    && forall i :: 0 <= i < |rows| ==> rows[i] == stream[at + i] && (asked.Some? ==> Before(asked.value, rows[i]))
  }

  ghost predicate ReplayInv(g: Settings, stream: seq<StreamId>, c: Connection)
    requires c.at <= |stream|
  {
    && c.phase.Replaying? && c.head == c.begin && c.dropped == {}
    && RowsFollow(stream, c.phase.rows, c.at, c.asked)
    && Caught(stream, c)
    && (if c.begin <= c.at + |c.phase.rows| then c.at + |c.phase.rows| <= c.from + g.replayLimit
        else c.at + |c.phase.rows| == c.from + g.replayLimit)
    && (c.asked.None? && c.at + |c.phase.rows| == c.from ==> c.from == 0)
    && (c.asked.None? ==> c.begin <= c.from + g.replayLimit)
  }

  ghost predicate LiveInv(g: Settings, stream: seq<StreamId>, c: Connection)
    requires c.at <= |stream|
  {
    && (forall k :: c.at <= k < c.head ==> Lost(g, c, k))
    && (forall k :: k in c.dropped ==> c.from <= k)
    && (c.from < c.at ==> !Lost(g, c, c.at - 1))
    && (c.asked.None? && c.at == c.from ==> c.from == 0)
    && (c.asked.None? ==> c.begin <= c.from + g.replayLimit)
    && (Caught(stream, c) || (c.from < c.at <= c.head && (c.last.Some? ==> Before(c.last.value, stream[c.at - 1]))))
    && (c.at < c.head && c.at < |stream| && c.last.Some? ==> Before(c.last.value, stream[c.at]))
  }

  ghost predicate ConnInv(g: Settings, stream: seq<StreamId>, c: Connection) {
    && Ascending(stream)
    && QueueInv(stream, c)
    && (match c.phase
        case Registered => c.sent == [] && c.last == c.asked && c.head == c.begin && c.dropped == {} && c.from == c.at == 0
        case Replaying(_) => StartInv(stream, c) && ReplayInv(g, stream, c) && c.sent == Picked(g, stream, c, c.at)
        case Live => StartInv(stream, c) && LiveInv(g, stream, c) && c.sent == Picked(g, stream, c, c.at))
  }

  lemma {:induction false} PickedAgrees(g: Settings, stream: seq<StreamId>, c: Connection,
                                        more: seq<StreamId>, d: Connection, to: nat)
    requires to <= |stream| && stream <= more && c.from == d.from
    requires forall k: nat :: k < to ==> (Lost(g, c, k) <==> Lost(g, d, k))
    ensures Picked(g, more, d, to) == Picked(g, stream, c, to)
  {
    if to > 0 {
      PickedAgrees(g, stream, c, more, d, to - 1);
    }
  }

  lemma {:induction false} PickedSkips(g: Settings, stream: seq<StreamId>, c: Connection, low: nat, high: nat)
    requires low <= high <= |stream|
    requires forall k: nat :: low <= k < high ==> Lost(g, c, k)
    ensures Picked(g, stream, c, high) == Picked(g, stream, c, low)
  {
    if low < high {
      PickedSkips(g, stream, c, low, high - 1);
    }
  }

  lemma AppendKeeps(g: Settings, stream: seq<StreamId>, c: Connection, id: StreamId)
    requires ConnInv(g, stream, c) && forall i :: 0 <= i < |stream| ==> Before(stream[i], id)
    ensures ConnInv(g, stream + [id], c)
  {
    var longer := stream + [id];
    assert Ascending(longer);
    hide Before, AtMost, Picked, Lost, Ascending;
    assert QueueInv(longer, c);
    if !c.phase.Registered? {
      PickedAgrees(g, stream, c, longer, c, c.at);
      assert StartInv(longer, c);
    }
    if c.phase.Replaying? {
      RowsStillFollow(stream, id, c.phase.rows, c.at, c.asked);
    }
  }

  lemma RowsStillFollow(stream: seq<StreamId>, id: StreamId, rows: seq<StreamId>, at: nat, asked: Option<StreamId>)
    requires RowsFollow(stream, rows, at, asked)
    ensures RowsFollow(stream + [id], rows, at, asked)
  {
  }

  lemma BroadcastKeeps(g: Settings, stream: seq<StreamId>, c: Connection)
    requires ConnInv(g, stream, c) && !c.closed && c.tail < |stream|
    ensures var (queue, closed) := Offer(c.queue, c.closed, g.queueSize, stream[c.tail]);
            ConnInv(g, stream, c.(queue := queue, closed := closed, tail := c.tail + 1))
  {
    hide Before, AtMost, Picked, Ascending, RowsFollow;
    var (queue, closed) := Offer(c.queue, c.closed, g.queueSize, stream[c.tail]);
    var d := c.(queue := queue, closed := closed, tail := c.tail + 1);
    assert forall k: nat :: Lost(g, c, k) <==> Lost(g, d, k);
    assert QueueInv(stream, d);
    if !c.phase.Registered? {
      PickedAgrees(g, stream, c, stream, d, c.at);
      assert StartInv(stream, d);
    }
  }

  lemma HistoryRead(stream: seq<StreamId>, cursor: Option<StreamId>, limit: nat, begin: nat)
    requires Ascending(stream) && limit >= 1 && begin <= |stream|
    ensures var from := HistoryFrom(stream, cursor, limit);
            var to := HistoryTo(stream, from, limit);
            && from <= to <= |stream| && to <= from + limit
            && (begin <= to || to == from + limit)
            && (to == from ==> from == |stream|)
            && (cursor.None? && to == from ==> from == 0)
            && (cursor.None? ==> to == |stream|)
            && (to == |stream| || to == from + limit)
            && (cursor.Some? ==>
                  && (forall i :: 0 <= i < from ==> AtMost(stream[i], cursor.value))
                  && (forall i :: from <= i < |stream| ==> Before(cursor.value, stream[i])))
  {
    if cursor.Some? {
      StartSplits(stream, cursor.value);
    }
  }

  lemma ReadHistoryKeeps(g: Settings, s: Session)
    requires s.connection.Some? && ConnInv(g, s.stream, s.connection.value) && MayStep(s, ReadHistory)
    requires g.replayLimit >= 1
    ensures ConnInv(g, s.stream, Do(g, s, ReadHistory).connection.value)
  {
    hide HistoryFrom, HistoryTo, Before, AtMost;
    var c := s.connection.value;
    HistoryRead(s.stream, c.asked, g.replayLimit, c.begin);
  }

  lemma ReplayedKeeps(g: Settings, s: Session)
    requires s.connection.Some? && ConnInv(g, s.stream, s.connection.value) && MayStep(s, SendReplayed(Delivered))
    ensures ConnInv(g, s.stream, Do(g, s, SendReplayed(Delivered)).connection.value)
  {
    var c, d := s.connection.value, Do(g, s, SendReplayed(Delivered)).connection.value;
    assert c.phase.rows[0] == s.stream[c.at];
    PickedAgrees(g, s.stream, c, s.stream, d, c.at);
    assert !Lost(g, d, c.at);
    assert d.sent == Picked(g, s.stream, d, c.at + 1);
  }

  lemma GoLiveKeeps(g: Settings, s: Session)
    requires s.connection.Some? && ConnInv(g, s.stream, s.connection.value) && MayStep(s, GoLive)
    requires g.replayLimit >= 1
    ensures ConnInv(g, s.stream, Do(g, s, GoLive).connection.value)
  {
    var c, d := s.connection.value, Do(g, s, GoLive).connection.value;
    PickedAgrees(g, s.stream, c, s.stream, d, c.at);
  }

  /** An entry that is not filtered has not arrived before. */
  lemma UnfilteredIsNew(g: Settings, stream: seq<StreamId>, c: Connection)
    requires ConnInv(g, stream, c) && c.phase.Live? && c.queue != []
    ensures c.head < |stream| && c.queue[0] == stream[c.head]
    ensures Filtered(c.last, c.queue[0]) ==> c.head < c.at || (c.head == c.at == c.from && c.last == c.asked)
    ensures !Filtered(c.last, c.queue[0]) ==> c.at <= c.head
    ensures !Filtered(c.last, c.queue[0]) && c.last.Some? ==> Before(c.last.value, stream[c.head])
    ensures !Filtered(c.last, c.queue[0]) && c.last.Some? && c.at < |stream| ==> Before(c.last.value, stream[c.at])
  {
    assert c.queue[0] == stream[c.head + 0];
    hide Picked;
    if c.last.Some? && c.head > c.at && c.at > c.from {
      assert Before(stream[c.at - 1], stream[c.head]);
    }
  }

  lemma SkipKeeps(g: Settings, stream: seq<StreamId>, c: Connection)
    requires ConnInv(g, stream, c) && c.phase.Live? && c.queue != [] && Filtered(c.last, c.queue[0])
    ensures ConnInv(g, stream, Skip(c))
  {
    UnfilteredIsNew(g, stream, c);
    if c.head < c.at {
      SkipOld(g, stream, c);
    } else {
      SkipAhead(g, stream, c);
    }
  }

  lemma SkipOld(g: Settings, stream: seq<StreamId>, c: Connection)
    requires ConnInv(g, stream, c) && c.phase.Live? && c.queue != [] && c.head < c.at
    ensures ConnInv(g, stream, Take(c))
  {
    hide Picked, Before, Ascending;
    PickedAgrees(g, stream, c, stream, Take(c), c.at);
  }

  lemma SkipAhead(g: Settings, stream: seq<StreamId>, c: Connection)
    requires ConnInv(g, stream, c) && c.phase.Live? && c.queue != [] && Filtered(c.last, c.queue[0])
    requires c.head == c.at == c.from && c.last == c.asked
    ensures ConnInv(g, stream, Take(c).(from := c.head + 1, at := c.head + 1))
  {
    var d := Take(c).(from := c.head + 1, at := c.head + 1);
    assert c.queue[0] == stream[c.head + 0];
    assert Picked(g, stream, c, c.at) == [] == Picked(g, stream, d, d.at);
    hide Picked, Before, Ascending;
  }

  /** The start of a delivery stays where it is, and everything up to the arrived entry lies
      after the cursor asked for. */
  lemma ArrivalIsAfterCursor(g: Settings, stream: seq<StreamId>, c: Connection)
    requires ConnInv(g, stream, c) && c.phase.Live? && c.queue != [] && !Filtered(c.last, c.queue[0])
    ensures c.asked.Some? ==> forall i :: c.from <= i <= c.head < |stream| ==> Before(c.asked.value, stream[i])
  {
    hide Picked;
    UnfilteredIsNew(g, stream, c);
    if c.asked.Some? && c.from < c.at {
      assert Before(c.asked.value, stream[c.at - 1]);
    }
  }

  lemma LiveArrivalKeeps(g: Settings, stream: seq<StreamId>, c: Connection, last: Option<StreamId>)
    requires ConnInv(g, stream, c) && c.phase.Live? && c.queue != [] && !Filtered(c.last, c.queue[0])
    requires last == Some(c.queue[0]) || last == c.last
    ensures ConnInv(g, stream, Take(c).(last := last, sent := c.sent + [c.queue[0]], at := c.head + 1))
  {
    UnfilteredIsNew(g, stream, c);
    ArrivalIsAfterCursor(g, stream, c);
    var d := Take(c).(last := last, sent := c.sent + [c.queue[0]], at := c.head + 1);
    PickedSkips(g, stream, c, c.at, c.head);
    PickedAgrees(g, stream, c, stream, d, c.head);
    assert !Lost(g, d, c.head);
    assert d.sent == Picked(g, stream, d, d.at);
    hide Picked;
  }

  lemma DropKeeps(g: Settings, stream: seq<StreamId>, c: Connection)
    requires ConnInv(g, stream, c) && c.phase.Live? && c.queue != [] && !Filtered(c.last, c.queue[0])
    ensures ConnInv(g, stream, Take(c).(dropped := c.dropped + {c.head}))
  {
    UnfilteredIsNew(g, stream, c);
    var d := Take(c).(dropped := c.dropped + {c.head});
    assert forall k: nat :: Lost(g, d, k) <==> Lost(g, c, k) || k == c.head;
    PickedAgrees(g, stream, c, stream, d, c.at);
    assert d.sent == Picked(g, stream, d, d.at);
    hide Picked;
  }

  ghost predicate Connected(g: Settings, s: Session) {
    && Ascending(s.stream)
    && (s.connection.Some? ==> ConnInv(g, s.stream, s.connection.value))
  }

  lemma StepKeepsConnection(g: Settings, s: Session, step: Step)
    requires Connected(g, s) && MayStep(s, step) && g.replayLimit >= 1
    ensures Connected(g, Do(g, s, step))
  {
    hide ConnInv;
    match step {
      case Append(id) => if s.connection.Some? { AppendKeeps(g, s.stream, s.connection.value, id); }
      case Connect(tail) => ConnectionBegins(g, s.stream, s.cursor, tail);
      case Broadcast => BroadcastKeeps(g, s.stream, s.connection.value);
      case ReadHistory => ReadHistoryKeeps(g, s);
      case SendReplayed(fate) => if fate.Delivered? { ReplayedKeeps(g, s); }
      case GoLive => GoLiveKeeps(g, s);
      case SendLive(fate) =>
        var c := s.connection.value;
        if Filtered(c.last, c.queue[0]) {
          SkipKeeps(g, s.stream, c);
        } else {
          match fate {
            case Delivered => LiveArrivalKeeps(g, s.stream, c, Some(c.queue[0]));
            case TimedOut(arrived) =>
              LiveArrivalKeeps(g, s.stream, c, c.last);
              DropKeeps(g, s.stream, c);
            case Ended(_) =>
          }
        }
      case Heartbeat =>
      case Disconnect =>
    }
  }

  lemma ConnectionBegins(g: Settings, stream: seq<StreamId>, cursor: Option<StreamId>, tail: nat)
    requires Ascending(stream) && tail <= |stream|
    ensures ConnInv(g, stream, Connection(Registered, cursor, [], false, tail, cursor, tail, 0, 0, tail, [], {}))
  {
  }

  lemma {:induction false} RunKeepsConnection(g: Settings, cursor: Option<StreamId>, run: seq<Session>)
    requires IsRun(g, cursor, run) && g.replayLimit >= 1
    ensures Connected(g, run[|run| - 1])
  {
    hide Do, MayStep, ConnInv;
    if |run| == 1 {
    } else {
      var front := run[..|run| - 1];
      RunKeepsConnection(g, cursor, front);
      assert Next(g, run[|run| - 2], run[|run| - 1]);
      var step :| MayStep(front[|front| - 1], step) && run[|run| - 1] == Do(g, front[|front| - 1], step);
      StepKeepsConnection(g, front[|front| - 1], step);
    }
  }
}
