/** What a browser has received: in order and without gaps, exactly when, over one connection
    and over any sequence of connections. */
module DeliveryTheorems {
  import opened StreamIds
  import opened Options
  import opened Delivery

  // ---- what one connection sends ----

  /** The sent entries are `n` consecutive ones of the stream. */
  ghost predicate Stretch(stream: seq<StreamId>, from: nat, n: nat, sent: seq<StreamId>) {
    from + n <= |stream| && sent == stream[from..from + n]
  }

  /** Position `first` is where the entries after the given cursor begin. */
  ghost predicate RightAfter(start: Option<StreamId>, stream: seq<StreamId>, first: nat) {
    start.Some? ==> forall k :: 0 <= k < |stream| ==> (first <= k <==> Before(start.value, stream[k]))
  }

  ghost predicate Offered(g: Settings, stream: seq<StreamId>, c: Connection, to: nat, id: StreamId) {
    exists k: nat :: c.from <= k < to && k < |stream| && id == stream[k] && !Lost(g, c, k)
  }

  lemma {:induction false} PickedAreOffered(g: Settings, stream: seq<StreamId>, c: Connection, to: nat)
    requires to <= |stream|
    ensures forall id :: id in Picked(g, stream, c, to) ==> Offered(g, stream, c, to, id)
  {
    if c.from < to {
      PickedAreOffered(g, stream, c, to - 1);
      assert forall id :: Offered(g, stream, c, to - 1, id) ==> Offered(g, stream, c, to, id);
      assert !Lost(g, c, to - 1) ==> Offered(g, stream, c, to, stream[to - 1]);
    }
  }

  lemma {:induction false} OfferedArePicked(g: Settings, stream: seq<StreamId>, c: Connection, to: nat, k: nat)
    requires c.from <= k < to <= |stream| && !Lost(g, c, k)
    ensures stream[k] in Picked(g, stream, c, to)
  {
    if k < to - 1 {
      OfferedArePicked(g, stream, c, to - 1, k);
    }
  }

  lemma {:induction false} PickedAscend(g: Settings, stream: seq<StreamId>, c: Connection, to: nat)
    requires Ascending(stream) && to <= |stream|
    ensures Ascending(Picked(g, stream, c, to))
  {
    if c.from < to {
      PickedAscend(g, stream, c, to - 1);
      PickedAreOffered(g, stream, c, to - 1);
      hide Lost;
      var sent := Picked(g, stream, c, to - 1);
      forall i | 0 <= i < |sent|
        ensures Before(sent[i], stream[to - 1])
      {
        assert sent[i] in sent;
        assert Offered(g, stream, c, to - 1, sent[i]);
      }
    }
  }

  lemma {:induction false} PickedWhole(g: Settings, stream: seq<StreamId>, c: Connection, to: nat)
    requires to <= |stream| && forall k: nat :: c.from <= k < to ==> !Lost(g, c, k)
    ensures Picked(g, stream, c, to) == if to <= c.from then [] else stream[c.from..to]
  {
    if c.from < to {
      PickedWhole(g, stream, c, to - 1);
      assert stream[c.from..to] == stream[c.from..to - 1] + [stream[to - 1]];
    }
  }

  /** What arrives on a connection is ordered, lies after the cursor the browser asked with,
      and misses, of the entries up to the last one that arrived, exactly those given up on a
      send timeout and those between a history read that was too short and the live queue. */
  lemma SentIsOrdered(g: Settings, cursor: Option<StreamId>, run: seq<Session>)
    requires IsRun(g, cursor, run) && g.replayLimit >= 1
    requires run[|run| - 1].connection.Some? && run[|run| - 1].connection.value.sent != []
    ensures var stream, c := run[|run| - 1].stream, run[|run| - 1].connection.value;
            && Ascending(c.sent)
            && c.from < c.at <= |stream| && c.sent[|c.sent| - 1] == stream[c.at - 1]
            && (forall id :: id in c.sent ==> Offered(g, stream, c, c.at, id))
            && (forall k: nat :: c.from <= k < c.at && !Lost(g, c, k) ==> stream[k] in c.sent)
            && (c.asked.Some? ==> forall k :: 0 <= k < |stream| ==> (c.from <= k <==> Before(c.asked.value, stream[k])))
  {
    RunKeepsConnection(g, cursor, run);
    ArrivedInOrder(g, run[|run| - 1].stream, run[|run| - 1].connection.value);
  }

  lemma ArrivedInOrder(g: Settings, stream: seq<StreamId>, c: Connection)
    requires ConnInv(g, stream, c) && c.sent != []
    ensures Ascending(c.sent)
    ensures c.from < c.at <= |stream| && c.sent[|c.sent| - 1] == stream[c.at - 1]
    ensures forall id :: id in c.sent ==> Offered(g, stream, c, c.at, id)
    ensures forall k: nat :: c.from <= k < c.at && !Lost(g, c, k) ==> stream[k] in c.sent
    ensures c.asked.Some? ==> forall k :: 0 <= k < |stream| ==> (c.from <= k <==> Before(c.asked.value, stream[k]))
  {
    hide Picked, Lost, QueueInv, LiveInv, ReplayInv, Offered;
    LastHasArrived(g, stream, c);
    PickedAscend(g, stream, c, c.at);
    PickedAreOffered(g, stream, c, c.at);
    forall k: nat | c.from <= k < c.at && !Lost(g, c, k)
      ensures stream[k] in c.sent
    {
      OfferedArePicked(g, stream, c, c.at, k);
    }
    if c.asked.Some? {
      OnlyLaterEntries(g, stream, c);
    }
  }

  lemma LastHasArrived(g: Settings, stream: seq<StreamId>, c: Connection)
    requires ConnInv(g, stream, c) && c.sent != []
    ensures c.from < c.at <= |stream| && !Lost(g, c, c.at - 1) && c.sent[|c.sent| - 1] == stream[c.at - 1]
  {
  }

  lemma OnlyLaterEntries(g: Settings, stream: seq<StreamId>, c: Connection)
    requires ConnInv(g, stream, c) && c.sent != [] && c.asked.Some?
    ensures forall k :: 0 <= k < |stream| ==> (c.from <= k <==> Before(c.asked.value, stream[k]))
  {
    hide Picked;
    LastHasArrived(g, stream, c);
    assert Before(c.asked.value, stream[c.from]);
  }

  /** At every moment what arrived is a gap-free stretch of the stream that starts right after
      the cursor, if and only if nothing arrived after an entry given up on a send timeout,
      and the history read reached where the live queue begins, or no live entry arrived. */
  lemma SentIsAPrefix(g: Settings, cursor: Option<StreamId>, run: seq<Session>)
    requires IsRun(g, cursor, run) && g.replayLimit >= 1
    requires run[|run| - 1].connection.Some?
    ensures var stream, c := run[|run| - 1].stream, run[|run| - 1].connection.value;
            && c.from <= c.at <= |stream|
            && (c.sent != [] ==> RightAfter(c.asked, stream, c.from))
            && (NothingLost(g, c) <==> exists n: nat :: Stretch(stream, c.from, n, c.sent))
  {
    RunKeepsConnection(g, cursor, run);
    var stream, c := run[|run| - 1].stream, run[|run| - 1].connection.value;
    PrefixIff(g, stream, c);
    if c.sent != [] {
      ArrivedInOrder(g, stream, c);
    }
  }

  /** A browser that asks without a cursor is sent the most recent entries, so its history read
      always reaches where the live queue begins: only a send given up can leave a gap. */
  lemma RecentIsNeverCut(g: Settings, cursor: Option<StreamId>, run: seq<Session>)
    requires IsRun(g, cursor, run) && g.replayLimit >= 1
    requires run[|run| - 1].connection.Some? && run[|run| - 1].connection.value.asked.None?
    requires !run[|run| - 1].connection.value.phase.Registered?
    ensures var stream, c := run[|run| - 1].stream, run[|run| - 1].connection.value;
            && c.begin <= c.from + g.replayLimit
            && ((exists n: nat :: Stretch(stream, c.from, n, c.sent)) <==> forall k :: k in c.dropped ==> c.at <= k)
  {
    hide Stretch, Picked;
    SentIsAPrefix(g, cursor, run);
    RunKeepsConnection(g, cursor, run);
  }

  lemma PrefixIff(g: Settings, stream: seq<StreamId>, c: Connection)
    requires ConnInv(g, stream, c)
    ensures c.from <= c.at <= |stream|
    ensures NothingLost(g, c) ==> c.sent == stream[c.from..c.at]
    ensures NothingLost(g, c) <==> exists n: nat :: Stretch(stream, c.from, n, c.sent)
  {
    hide Picked;
    if c.sent == [] {
      NothingSent(g, stream, c);
      assert Stretch(stream, c.from, 0, c.sent);
    } else {
      LostBelow(g, stream, c);
      if NothingLost(g, c) {
        NoneMissing(g, stream, c);
        assert Stretch(stream, c.from, c.at - c.from, c.sent);
      }
      if n: nat :| Stretch(stream, c.from, n, c.sent) {
        StretchMissesNothing(g, stream, c, n);
      }
    }
  }

  lemma NoneMissing(g: Settings, stream: seq<StreamId>, c: Connection)
    requires ConnInv(g, stream, c) && c.sent != []
    requires forall k: nat :: c.from <= k < c.at ==> !Lost(g, c, k)
    ensures c.from <= c.at <= |stream| && c.sent == stream[c.from..c.at]
  {
    PickedWhole(g, stream, c, c.at);
  }

  lemma StretchMissesNothing(g: Settings, stream: seq<StreamId>, c: Connection, n: nat)
    requires ConnInv(g, stream, c) && c.sent != [] && Stretch(stream, c.from, n, c.sent)
    ensures forall k: nat :: c.from <= k < c.at ==> !Lost(g, c, k)
  {
    hide Picked, Lost, QueueInv, LiveInv, ReplayInv, StartInv, Offered;
    LastHasArrived(g, stream, c);
    PickedAreOffered(g, stream, c, c.at);
    assert c.sent[n - 1] == stream[c.from + n - 1];
    assert c.from + n == c.at;
    forall k: nat | c.from <= k < c.at
      ensures !Lost(g, c, k)
    {
      assert c.sent[k - c.from] == stream[k];
      OfferedOnce(g, stream, c, k);
    }
  }

  lemma OfferedOnce(g: Settings, stream: seq<StreamId>, c: Connection, k: nat)
    requires Ascending(stream) && k < |stream| && Offered(g, stream, c, c.at, stream[k])
    ensures !Lost(g, c, k)
  {
  }

  lemma NothingSent(g: Settings, stream: seq<StreamId>, c: Connection)
    requires ConnInv(g, stream, c) && c.sent == []
    ensures c.from == c.at <= |stream| && NothingLost(g, c)
  {
    assert c.from < c.at ==> Picked(g, stream, c, c.at) != [];
  }

  lemma LostBelow(g: Settings, stream: seq<StreamId>, c: Connection)
    requires ConnInv(g, stream, c)
    ensures NothingLost(g, c) <==> forall k: nat :: c.from <= k < c.at ==> !Lost(g, c, k)
  {
    hide Picked;
    if c.begin > c.from + g.replayLimit && c.at > c.from + g.replayLimit {
      assert Lost(g, c, c.from + g.replayLimit);
    }
    forall k | k in c.dropped && k < c.at
      ensures Lost(g, c, k) && c.from <= k
    {
    }
  }

  // ---- over any number of connections ----

  /** The cursor is the one the browser started with or some entry it received. */
  ghost predicate CursorKnown(start: Option<StreamId>, received: seq<StreamId>, cursor: Option<StreamId>) {
    && (received == [] ==> cursor == start)
    && (received != [] ==> cursor.Some? && (cursor == start || cursor.value in received))
  }

  /** Some entry received is not the one whose turn it was. */
  ghost predicate Broken(s: Session) {
    exists i: nat, k: nat :: OutOfTurn(s, i, k)
  }

  ghost predicate OutOfTurn(s: Session, i: nat, k: nat) {
    i < |s.received| && k < |s.stream| && s.received[i] == s.stream[k] && k != s.origin + i
  }

  ghost predicate OriginInv(start: Option<StreamId>, s: Session) {
    && (s.received != [] ==> s.origin < |s.stream| && RightAfter(start, s.stream, s.origin))
    && (s.received == [] ==> s.cursor == start && !s.gap && !s.stale)
    && (s.received == [] && s.connection.Some? ==>
          s.connection.value.asked == start && s.connection.value.sent == [])
  }

  /** What came over the connections before this one. */
  function Base(s: Session, c: Connection): seq<StreamId>
    requires |c.sent| <= |s.received|
  {
    s.received[..|s.received| - |c.sent|]
  }

  /** The connection has nothing that was received before still ahead of it, or is about to
      send it. */
  ghost predicate NothingOld(c: Connection, next: nat) {
    match c.phase
    case Registered => true
    case Replaying(rows) => rows != [] || next <= c.from
    case Live => next <= c.from
  }

  /** While connected: a stretch from the earlier connections, and what came over this one
      goes on where it ended. */
  ghost predicate Continues(g: Settings, start: Option<StreamId>, s: Session, c: Connection) {
    && |c.sent| <= |s.received|
    && s.received == Base(s, c) + c.sent
    && (Base(s, c) != [] ==> Stretch(s.stream, s.origin, |Base(s, c)|, Base(s, c)))
    && CursorKnown(start, Base(s, c), c.asked)
    && CursorKnown(start, s.received, s.cursor)
    && (c.last.Some? ==> c.last == c.asked || c.last.value in s.received)
    && NothingLost(g, c)
    && (if c.sent == [] then Base(s, c) != [] ==> NothingOld(c, s.origin + |Base(s, c)|)
        else if Base(s, c) == [] then s.origin == c.from
        else c.asked == Some(Base(s, c)[|Base(s, c)| - 1]))
  }

  ghost predicate InTurn(g: Settings, start: Option<StreamId>, s: Session) {
    if s.connection.Some? then Continues(g, start, s, s.connection.value)
    else CursorKnown(start, s.received, s.cursor)
         && (s.received != [] ==> Stretch(s.stream, s.origin, |s.received|, s.received))
  }

  /** Either every entry came in its turn, or the history of losses says which kind of
      arrival did not. */
  ghost predicate SessionSound(g: Settings, start: Option<StreamId>, s: Session) {
    OriginInv(start, s) && if s.gap || s.stale then Broken(s) else InTurn(g, start, s)
  }

  // ---- what a stretch excludes ----

  lemma StretchIsUnbroken(s: Session)
    requires Ascending(s.stream) && Stretch(s.stream, s.origin, |s.received|, s.received)
    ensures !Broken(s)
  {
    forall i: nat, k: nat
      ensures !OutOfTurn(s, i, k)
    {
      if i < |s.received| && k < |s.stream| && k != s.origin + i {
        assert s.received[i] == s.stream[s.origin + i];
      }
    }
  }

  lemma BrokenStays(s: Session, later: Session)
    requires Broken(s) && s.received <= later.received && s.stream <= later.stream && later.origin == s.origin
    ensures Broken(later)
  {
    var i: nat, k: nat :| OutOfTurn(s, i, k);
    assert OutOfTurn(later, i, k);
  }

  lemma Adjoin(stream: seq<StreamId>, first: nat, base: seq<StreamId>, sent: seq<StreamId>)
    requires Stretch(stream, first, |base|, base) && Stretch(stream, first + |base|, |sent|, sent)
    ensures Stretch(stream, first, |base + sent|, base + sent)
  {
  }

  /** The entries after entry `last` begin at the position after it. */
  lemma NextInLine(stream: seq<StreamId>, last: nat, from: nat)
    requires Ascending(stream) && last < |stream| && from < |stream|
    requires RightAfter(Some(stream[last]), stream, from)
    ensures from == last + 1
  {
    assert !Before(stream[last], stream[last]);
    if last + 1 < |stream| {
      assert Before(stream[last], stream[last + 1]);
    }
  }

  lemma NoneMissingHere(g: Settings, stream: seq<StreamId>, c: Connection)
    requires ConnInv(g, stream, c) && c.sent != [] && NothingLost(g, c)
    ensures c.from < c.at <= |stream| && Stretch(stream, c.from, |c.sent|, c.sent) && |c.sent| == c.at - c.from
    ensures RightAfter(c.asked, stream, c.from)
  {
    LostBelow(g, stream, c);
    NoneMissing(g, stream, c);
    ArrivedInOrder(g, stream, c);
  }

  /** A connection that asked with the last entry received goes on exactly where the ones
      before it stopped. */
  lemma Join(g: Settings, start: Option<StreamId>, s: Session, c: Connection)
    requires ConnInv(g, s.stream, c) && Continues(g, start, s, c) && s.received != []
    ensures Stretch(s.stream, s.origin, |s.received|, s.received)
    ensures c.sent != [] ==> s.origin + |s.received| == c.at
  {
    hide ConnInv, RightAfter, Ascending, Lost, NothingLost, CursorKnown, NothingOld, Stretch;
    var base := Base(s, c);
    if c.sent == [] {
      assert base == s.received;
    } else {
      NoneMissingHere(g, s.stream, c);
      if base == [] {
        assert s.received == c.sent;
      } else {
        Ascends(g, s.stream, c);
        GoesOn(s.stream, s.origin, base, c.sent, c.from);
      }
    }
  }

  lemma GoesOn(stream: seq<StreamId>, origin: nat, base: seq<StreamId>, sent: seq<StreamId>, from: nat)
    requires Ascending(stream) && base != [] && Stretch(stream, origin, |base|, base)
    requires from < |stream| && Stretch(stream, from, |sent|, sent) && RightAfter(Some(base[|base| - 1]), stream, from)
    ensures from == origin + |base| && Stretch(stream, origin, |base + sent|, base + sent)
  {
    hide Ascending, RightAfter;
    assert base[|base| - 1] == stream[origin + |base| - 1];
    NextInLine(stream, origin + |base| - 1, from);
    Adjoin(stream, origin, base, sent);
  }

  lemma Ascends(g: Settings, stream: seq<StreamId>, c: Connection)
    requires ConnInv(g, stream, c)
    ensures Ascending(stream)
  {
  }

  // ---- an entry arrives ----

  /** Where the arriving entry stands: at the front of the history rows or of the queue. */
  ghost predicate Arriving(stream: seq<StreamId>, c: Connection, position: nat) {
    && position < |stream|
    && (match c.phase
        case Registered => false
        case Replaying(rows) => rows != [] && position == c.at
        case Live => c.queue != [] && position == c.head && c.at <= c.head)
  }

  /** If the arrival shows that something was lost, the entry is not the next one. */
  lemma LossSkipsPosition(g: Settings, stream: seq<StreamId>, c: Connection, d: Connection, position: nat)
    requires ConnInv(g, stream, c) && Arriving(stream, c, position) && NothingLost(g, c)
    requires d.dropped == c.dropped && d.begin == c.begin && d.from == c.from && d.at == position + 1
    requires !NothingLost(g, d)
    ensures position != c.at
  {
    hide Picked, Before;
  }

  /** Once something arrived, the cursor asked with determines where the delivery began. */
  lemma ArrivalFollowsCursor(g: Settings, stream: seq<StreamId>, d: Connection)
    requires ConnInv(g, stream, d) && d.sent != []
    ensures d.from < |stream| && RightAfter(d.asked, stream, d.from)
  {
    ArrivedInOrder(g, stream, d);
  }

  /** A connection that asked otherwise than with the last entry received begins with an entry
      received before. */
  lemma StaleArrivesEarly(g: Settings, start: Option<StreamId>, s: Session, c: Connection, d: Connection, position: nat)
    requires ConnInv(g, s.stream, c) && ConnInv(g, s.stream, d) && Continues(g, start, s, c) && OriginInv(start, s)
    requires c.sent == [] && AskedOtherwise(s.received, c) && Arriving(s.stream, c, position)
    requires d.sent != [] && d.asked == c.asked && d.from == c.from
    ensures position < s.origin + |s.received|
  {
    hide ConnInv, NothingLost;
    assert Base(s, c) == s.received;
    ArrivalFollowsCursor(g, s.stream, d);
    Ascends(g, s.stream, c);
    NothingSent(g, s.stream, c);
    AskedEarlier(start, s, c.asked, c.from);
  }

  lemma AskedEarlier(start: Option<StreamId>, s: Session, asked: Option<StreamId>, from: nat)
    requires Ascending(s.stream) && OriginInv(start, s) && s.received != [] && from < |s.stream|
    requires Stretch(s.stream, s.origin, |s.received|, s.received)
    requires CursorKnown(start, s.received, asked) && asked != Some(s.received[|s.received| - 1])
    requires RightAfter(asked, s.stream, from)
    ensures from < s.origin + |s.received|
  {
    if asked == start {
      assert s.origin <= s.origin <==> Before(start.value, s.stream[s.origin]);
      assert from <= s.origin <==> Before(asked.value, s.stream[s.origin]);
    } else {
      var j :| 0 <= j < |s.received| && s.received[j] == asked.value;
      assert s.stream[s.origin + j] == asked.value;
      hide OriginInv, CursorKnown;
      NextInLine(s.stream, s.origin + j, from);
    }
  }

  /** The position whose turn it is, unless the connection asked otherwise. */
  lemma TurnIsAt(g: Settings, start: Option<StreamId>, s: Session, c: Connection, d: Connection)
    requires ConnInv(g, s.stream, c) && ConnInv(g, s.stream, d) && Continues(g, start, s, c)
    requires !(c.sent == [] && AskedOtherwise(s.received, c))
    requires d.sent != [] && d.asked == c.asked && d.from == c.from
    ensures (if s.received == [] then c.from else s.origin + |s.received|) == c.at
  {
    hide ConnInv, NothingLost, RightAfter, CursorKnown;
    if c.sent == [] {
      NothingSent(g, s.stream, c);
      assert Base(s, c) == s.received;
      if s.received != [] {
        ArrivalFollowsCursor(g, s.stream, d);
        Ascends(g, s.stream, c);
        assert s.received[|s.received| - 1] == s.stream[s.origin + |s.received| - 1];
        NextInLine(s.stream, s.origin + |s.received| - 1, c.from);
      }
    } else {
      Join(g, start, s, c);
    }
  }

  lemma ArrivalOutOfTurn(g: Settings, s: Session, c: Connection, item: StreamId, position: nat)
    requires position < |s.stream| && item == s.stream[position]
    requires position != (if s.received == [] then c.from else s.origin + |s.received|)
    ensures Broken(Arrive(g, s, c, item, position))
  {
    assert OutOfTurn(Arrive(g, s, c, item, position), |s.received|, position);
  }

  lemma ArrivalInTurn(g: Settings, start: Option<StreamId>, s: Session, c: Connection, b: Connection, item: StreamId, position: nat)
    requires Continues(g, start, s, c) && b.asked == c.asked && b.from == c.from && b.sent == c.sent
    requires b.last == Some(item) || b.last == c.last
    requires !Arrive(g, s, b, item, position).gap && !Arrive(g, s, b, item, position).stale
    ensures InTurn(g, start, Arrive(g, s, b, item, position))
  {
    hide NothingLost, Stretch, CursorKnown, Base;
    var later := Arrive(g, s, b, item, position);
    var d := later.connection.value;
    SameBase(s, c, later, d, item);
    ReceivedIsKnown(start, s.received, item);
    assert d.last.Some? ==> d.last == d.asked || d.last.value in later.received;
    if s.received != [] {
      assert later.origin == s.origin;
    }
  }

  lemma SameBase(s: Session, c: Connection, later: Session, d: Connection, item: StreamId)
    requires |c.sent| <= |s.received| && s.received == Base(s, c) + c.sent
    requires later.received == s.received + [item] && d.sent == c.sent + [item]
    ensures Base(later, d) == Base(s, c) && later.received == Base(later, d) + d.sent
    ensures c.sent == [] ==> Base(s, c) == s.received
  {
  }

  lemma ReceivedIsKnown(start: Option<StreamId>, received: seq<StreamId>, item: StreamId)
    ensures CursorKnown(start, received + [item], Some(item))
    ensures item in received + [item] && forall x :: x in received ==> x in received + [item]
  {
  }

  /** The heart of the matter: from a state in turn, an arrival is in turn exactly when it
      raises neither flag. `b` is the connection before the arrival is entered in it. */
  lemma ArrivalKeeps(g: Settings, start: Option<StreamId>, s: Session, c: Connection, b: Connection, item: StreamId, position: nat)
    requires ConnInv(g, s.stream, c) && ConnInv(g, s.stream, Arrive(g, s, b, item, position).connection.value)
    requires OriginInv(start, s) && s.connection == Some(c) && !s.gap && !s.stale && Continues(g, start, s, c)
    requires Arriving(s.stream, c, position) && item == s.stream[position]
    requires b.asked == c.asked && b.from == c.from && b.sent == c.sent && b.begin == c.begin && b.dropped == c.dropped
    requires b.last == Some(item) || b.last == c.last
    ensures var later := Arrive(g, s, b, item, position);
            if later.gap || later.stale then Broken(later) else InTurn(g, start, later)
  {
    hide ConnInv, NothingLost, Continues, OriginInv, InTurn, Broken;
    var later := Arrive(g, s, b, item, position);
    var d := later.connection.value;
    if c.sent == [] && AskedOtherwise(s.received, c) {
      StaleArrivesEarly(g, start, s, c, d, position);
      ArrivalOutOfTurn(g, s, b, item, position);
    } else if later.gap {
      TurnIsAt(g, start, s, c, d);
      LossIsNone(g, start, s, c);
      LossSkipsPosition(g, s.stream, c, d, position);
      ArrivalOutOfTurn(g, s, b, item, position);
    } else {
      ArrivalInTurn(g, start, s, c, b, item, position);
    }
  }

  lemma LossIsNone(g: Settings, start: Option<StreamId>, s: Session, c: Connection)
    requires Continues(g, start, s, c)
    ensures NothingLost(g, c)
  {
  }

  /** An arrival fixes where the delivery began. */
  lemma ArrivalOrigin(g: Settings, start: Option<StreamId>, s: Session, b: Connection, item: StreamId, position: nat)
    requires ConnInv(g, s.stream, Arrive(g, s, b, item, position).connection.value)
    requires OriginInv(start, s) && s.connection.Some? && b.asked == s.connection.value.asked
    ensures OriginInv(start, Arrive(g, s, b, item, position))
  {
    hide ConnInv, NothingLost, RightAfter;
    ArrivalFollowsCursor(g, s.stream, Arrive(g, s, b, item, position).connection.value);
  }

  // ---- every step ----

  lemma StretchStays(stream: seq<StreamId>, id: StreamId, first: nat, sent: seq<StreamId>)
    requires Stretch(stream, first, |sent|, sent)
    ensures Stretch(stream + [id], first, |sent|, sent)
  {
  }

  lemma AppendStaysInTurn(g: Settings, start: Option<StreamId>, s: Session, id: StreamId)
    requires InTurn(g, start, s)
    ensures InTurn(g, start, s.(stream := s.stream + [id]))
  {
    hide NothingLost, CursorKnown, NothingOld, Stretch;
    if s.connection.Some? {
      var c := s.connection.value;
      if Base(s, c) != [] {
        StretchStays(s.stream, id, s.origin, Base(s, c));
      }
    } else if s.received != [] {
      StretchStays(s.stream, id, s.origin, s.received);
    }
  }

  lemma AppendKeepsOrigin(start: Option<StreamId>, s: Session, id: StreamId)
    requires OriginInv(start, s) && Ascending(s.stream + [id])
    ensures OriginInv(start, s.(stream := s.stream + [id]))
  {
    var longer := s.stream + [id];
    if s.received != [] && start.Some? {
      assert s.origin <= s.origin <==> Before(start.value, s.stream[s.origin]);
      assert Before(longer[s.origin], longer[|s.stream|]);
    }
  }

  lemma ConnectStaysInTurn(g: Settings, start: Option<StreamId>, s: Session, tail: nat)
    requires MayStep(s, Connect(tail)) && InTurn(g, start, s)
    ensures InTurn(g, start, Do(g, s, Connect(tail)))
  {
    hide Stretch, CursorKnown;
    assert s.received[..|s.received| - 0] == s.received;
    assert s.received + [] == s.received;
  }

  lemma QuietStaysInTurn(g: Settings, start: Option<StreamId>, s: Session, step: Step)
    requires MayStep(s, step) && (step.Broadcast? || step.GoLive?)
    requires InTurn(g, start, s)
    ensures InTurn(g, start, Do(g, s, step))
  {
    hide Stretch, CursorKnown, Offer;
  }

  lemma HistoryStaysInTurn(g: Settings, start: Option<StreamId>, s: Session)
    requires s.connection.Some? && ConnInv(g, s.stream, s.connection.value) && MayStep(s, ReadHistory)
    requires InTurn(g, start, s) && g.replayLimit >= 1
    ensures InTurn(g, start, Do(g, s, ReadHistory))
  {
    hide HistoryFrom, HistoryTo, CursorKnown, Picked;
    HistoryRead(s.stream, s.connection.value.asked, g.replayLimit, s.connection.value.begin);
  }

  lemma SkipStaysInTurn(g: Settings, start: Option<StreamId>, s: Session, c: Connection)
    requires ConnInv(g, s.stream, c) && c.phase.Live? && c.queue != [] && Filtered(c.last, c.queue[0])
    requires Continues(g, start, s, c) && s.connection == Some(c)
    ensures InTurn(g, start, s.(connection := Some(Skip(c))))
  {
    hide ConnInv, Stretch, CursorKnown, NothingLost, Filtered;
    SkipCases(g, s.stream, c);
    LossAfterSkip(g, s.stream, c);
  }

  /** A filtered entry arrived before, or nothing has arrived yet. */
  lemma SkipCases(g: Settings, stream: seq<StreamId>, c: Connection)
    requires ConnInv(g, stream, c) && c.phase.Live? && c.queue != [] && Filtered(c.last, c.queue[0])
    ensures c.head < c.at || (c.head == c.at == c.from && c.sent == [])
  {
    UnfilteredIsNew(g, stream, c);
    if c.sent != [] {
      LastHasArrived(g, stream, c);
    }
  }

  lemma LossAfterSkip(g: Settings, stream: seq<StreamId>, c: Connection)
    requires ConnInv(g, stream, c) && c.phase.Live? && c.queue != [] && NothingLost(g, c)
    requires c.head < c.at || c.head == c.at == c.from
    ensures NothingLost(g, Skip(c))
  {
    hide Picked, Before, Ascending;
  }

  lemma DropStaysInTurn(g: Settings, start: Option<StreamId>, s: Session, c: Connection)
    requires ConnInv(g, s.stream, c) && c.phase.Live? && c.queue != [] && !Filtered(c.last, c.queue[0])
    requires Continues(g, start, s, c)
    ensures Continues(g, start, s, Take(c).(dropped := c.dropped + {c.head}))
  {
    UnfilteredIsNew(g, s.stream, c);
    hide ConnInv, Stretch, CursorKnown;
  }

  /** A heartbeat gives the browser a cursor it knew. */
  lemma HeartbeatStaysInTurn(g: Settings, start: Option<StreamId>, s: Session)
    requires MayStep(s, Heartbeat) && InTurn(g, start, s)
    ensures InTurn(g, start, Do(g, s, Heartbeat))
  {
    var c := s.connection.value;
    LastIsKnown(start, Base(s, c), s.received, c.asked, c.last);
    hide Stretch, NothingLost, NothingOld, CursorKnown;
    assert Base(Do(g, s, Heartbeat), c) == Base(s, c);
  }

  lemma LastIsKnown(start: Option<StreamId>, base: seq<StreamId>, received: seq<StreamId>, asked: Option<StreamId>,
                    last: Option<StreamId>)
    requires CursorKnown(start, base, asked) && base <= received
    requires last.Some? ==> last == asked || last.value in received
    ensures last.Some? ==> CursorKnown(start, received, last)
  {
  }

  lemma CloseStaysInTurn(g: Settings, start: Option<StreamId>, s: Session)
    requires Connected(g, s) && s.connection.Some? && InTurn(g, start, s)
    ensures InTurn(g, start, Close(s))
  {
    if s.received != [] {
      Join(g, start, s, s.connection.value);
    }
  }

  lemma CloseStaysSound(g: Settings, start: Option<StreamId>, s: Session)
    requires Connected(g, s) && s.connection.Some? && SessionSound(g, start, s)
    ensures SessionSound(g, start, Close(s))
  {
    hide ConnInv, InTurn, Broken, RightAfter;
    if s.gap || s.stale {
      assert Broken(s);
      BrokenStays(s, Close(s));
    } else {
      CloseStaysInTurn(g, start, s);
    }
  }

  /** An arrival, from a sound state. */
  lemma ArrivalStaysSound(g: Settings, start: Option<StreamId>, s: Session, c: Connection, b: Connection, item: StreamId, position: nat)
    requires ConnInv(g, s.stream, c) && ConnInv(g, s.stream, Arrive(g, s, b, item, position).connection.value)
    requires SessionSound(g, start, s) && s.connection == Some(c)
    requires Arriving(s.stream, c, position) && item == s.stream[position]
    requires b.asked == c.asked && b.from == c.from && b.sent == c.sent && b.begin == c.begin && b.dropped == c.dropped
    requires b.last == Some(item) || b.last == c.last
    ensures SessionSound(g, start, Arrive(g, s, b, item, position))
  {
    hide ConnInv, Continues, OriginInv, Broken, Arriving, NothingLost;
    ArrivalOrigin(g, start, s, b, item, position);
    if s.gap || s.stale {
      BrokenHasReceived(s);
      BrokenStays(s, Arrive(g, s, b, item, position));
    } else {
      ArrivalKeeps(g, start, s, c, b, item, position);
    }
  }

  lemma BrokenHasReceived(s: Session)
    requires Broken(s)
    ensures s.received != []
  {
  }

  lemma ReplayedStaysSound(g: Settings, start: Option<StreamId>, s: Session)
    requires Connected(g, s) && SessionSound(g, start, s) && MayStep(s, SendReplayed(Delivered))
    ensures SessionSound(g, start, Do(g, s, SendReplayed(Delivered)))
  {
    ReplayedKeeps(g, s);
    var c := s.connection.value;
    var item := c.phase.rows[0];
    assert item == s.stream[c.at + 0];
    hide ConnInv, SessionSound;
    ArrivalStaysSound(g, start, s, c, c.(phase := Replaying(c.phase.rows[1..]), last := Some(item)), item, c.at);
  }

  lemma LiveStaysSound(g: Settings, start: Option<StreamId>, s: Session, last: Option<StreamId>)
    requires Connected(g, s) && SessionSound(g, start, s) && MayStep(s, SendLive(Delivered))
    requires !Filtered(s.connection.value.last, s.connection.value.queue[0])
    requires last == Some(s.connection.value.queue[0]) || last == s.connection.value.last
    ensures var c := s.connection.value;
            SessionSound(g, start, Arrive(g, s, Take(c).(last := last), c.queue[0], c.head))
  {
    hide ConnInv, SessionSound, Filtered, NothingLost;
    var c := s.connection.value;
    UnfilteredIsNew(g, s.stream, c);
    LiveArrivalKeeps(g, s.stream, c, last);
    ArrivalStaysSound(g, start, s, c, Take(c).(last := last), c.queue[0], c.head);
  }

  lemma SameOrigin(start: Option<StreamId>, s: Session, later: Session)
    requires OriginInv(start, s)
    requires later.stream == s.stream && later.received == s.received && later.origin == s.origin
    requires later.gap == s.gap && later.stale == s.stale
    requires s.received == [] ==> later.cursor == start
    requires s.received == [] && later.connection.Some? ==>
               later.connection.value.asked == start && later.connection.value.sent == []
    ensures OriginInv(start, later)
  {
    hide RightAfter;
  }

  lemma LiveSendStaysSound(g: Settings, start: Option<StreamId>, s: Session, fate: Fate)
    requires Connected(g, s) && SessionSound(g, start, s) && MayStep(s, SendLive(fate))
    ensures SessionSound(g, start, Do(g, s, SendLive(fate)))
  {
    hide ConnInv, SessionSound, NothingLost, Filtered;
    var c := s.connection.value;
    if Filtered(c.last, c.queue[0]) {
      SkipStaysSound(g, start, s, c);
    } else if fate.TimedOut? {
      LateIsSound(g, start, s);
      var late := s.(timedOut := true);
      LiveStaysSound(g, start, late, c.last);
      DropStaysSound(g, start, late, c);
    } else {
      LiveStaysSound(g, start, s, Some(c.queue[0]));
      EndedStaysSound(g, start, s, c);
    }
  }

  lemma EndedStaysSound(g: Settings, start: Option<StreamId>, s: Session, c: Connection)
    requires Connected(g, s) && SessionSound(g, start, s) && MayStep(s, SendLive(Delivered)) && s.connection == Some(c)
    requires !Filtered(c.last, c.queue[0])
    ensures SessionSound(g, start, Close(s))
    ensures SessionSound(g, start, Close(Arrive(g, s, Take(c), c.queue[0], c.head)))
  {
    hide ConnInv, SessionSound, NothingLost, Filtered;
    CloseStaysSound(g, start, s);
    LiveStaysSound(g, start, s, c.last);
    LiveArrivalKeeps(g, s.stream, c, c.last);
    CloseStaysSound(g, start, Arrive(g, s, Take(c), c.queue[0], c.head));
  }

  lemma LateIsSound(g: Settings, start: Option<StreamId>, s: Session)
    requires Connected(g, s) && SessionSound(g, start, s)
    ensures Connected(g, s.(timedOut := true)) && SessionSound(g, start, s.(timedOut := true))
  {
    hide ConnInv, RightAfter, NothingLost, NothingOld, CursorKnown, Stretch;
    var late := s.(timedOut := true);
    if s.gap || s.stale {
      BrokenStays(s, late);
    } else if s.connection.Some? {
      assert Base(late, s.connection.value) == Base(s, s.connection.value);
    }
  }

  lemma SkipStaysSound(g: Settings, start: Option<StreamId>, s: Session, c: Connection)
    requires Connected(g, s) && SessionSound(g, start, s) && s.connection == Some(c)
    requires c.phase.Live? && c.queue != [] && Filtered(c.last, c.queue[0])
    ensures SessionSound(g, start, s.(connection := Some(Skip(c))))
  {
    hide ConnInv, Broken, RightAfter, Filtered, Continues;
    var later := s.(connection := Some(Skip(c)));
    SameOrigin(start, s, later);
    if !s.gap && !s.stale {
      SkipStaysInTurn(g, start, s, c);
    } else {
      BrokenStays(s, later);
    }
  }

  lemma DropStaysSound(g: Settings, start: Option<StreamId>, s: Session, c: Connection)
    requires Connected(g, s) && SessionSound(g, start, s) && s.connection == Some(c)
    requires c.phase.Live? && c.queue != [] && !Filtered(c.last, c.queue[0])
    ensures SessionSound(g, start, s.(connection := Some(Take(c).(dropped := c.dropped + {c.head}))))
  {
    hide ConnInv, Broken, RightAfter, Filtered, Continues;
    var d := Take(c).(dropped := c.dropped + {c.head});
    var later := s.(connection := Some(d));
    SameOrigin(start, s, later);
    if !s.gap && !s.stale {
      DropStaysInTurn(g, start, s, c);
      SameContinues(g, start, s, later, d);
    } else {
      BrokenStays(s, later);
    }
  }

  lemma SameContinues(g: Settings, start: Option<StreamId>, s: Session, later: Session, d: Connection)
    requires Continues(g, start, s, d) && later == s.(connection := Some(d))
    ensures Continues(g, start, later, d)
  {
    hide NothingLost, CursorKnown, Stretch, NothingOld;
    assert Base(later, d) == Base(s, d);
  }

  lemma ReplayedSendStaysSound(g: Settings, start: Option<StreamId>, s: Session, fate: Fate)
    requires Connected(g, s) && SessionSound(g, start, s) && MayStep(s, SendReplayed(fate))
    ensures SessionSound(g, start, Do(g, s, SendReplayed(fate)))
  {
    hide ConnInv, SessionSound;
    ReplayedStaysSound(g, start, s);
    var done := Do(g, s, SendReplayed(Delivered));
    ReplayedKeeps(g, s);
    CloseStaysSound(g, start, done);
    CloseStaysSound(g, start, s);
  }

  lemma AppendStaysSound(g: Settings, start: Option<StreamId>, s: Session, id: StreamId)
    requires SessionSound(g, start, s) && Ascending(s.stream + [id])
    ensures SessionSound(g, start, s.(stream := s.stream + [id]))
  {
    hide OriginInv, InTurn, Broken;
    var later := s.(stream := s.stream + [id]);
    AppendKeepsOrigin(start, s, id);
    if s.gap || s.stale {
      BrokenStays(s, later);
    } else {
      AppendStaysInTurn(g, start, s, id);
    }
  }

  /** The steps that bring no entry. */
  lemma SilentStepStaysSound(g: Settings, start: Option<StreamId>, s: Session, step: Step)
    requires Connected(g, s) && SessionSound(g, start, s) && MayStep(s, step) && g.replayLimit >= 1
    requires step.Connect? || step.Broadcast? || step.ReadHistory? || step.GoLive? || step.Heartbeat?
    ensures SessionSound(g, start, Do(g, s, step))
  {
    var later := Do(g, s, step);
    SilentOrigin(g, start, s, step);
    if s.gap || s.stale {
      BrokenStays(s, later);
    } else {
      hide ConnInv, OriginInv, InTurn, MayStep;
      match step {
        case Connect(tail) => ConnectStaysInTurn(g, start, s, tail);
        case ReadHistory => HistoryStaysInTurn(g, start, s);
        case Heartbeat => HeartbeatStaysInTurn(g, start, s);
        case _ => QuietStaysInTurn(g, start, s, step);
      }
    }
  }

  lemma SilentOrigin(g: Settings, start: Option<StreamId>, s: Session, step: Step)
    requires Connected(g, s) && OriginInv(start, s) && MayStep(s, step)
    requires step.Connect? || step.Broadcast? || step.ReadHistory? || step.GoLive? || step.Heartbeat?
    ensures OriginInv(start, Do(g, s, step))
  {
    hide RightAfter, HistoryFrom, HistoryTo, Offer, Picked;
    if step.Heartbeat? && s.received == [] {
      NothingSent(g, s.stream, s.connection.value);
    }
    hide ConnInv;
    SameOrigin(start, s, Do(g, s, step));
  }

  lemma StepKeepsSession(g: Settings, start: Option<StreamId>, s: Session, step: Step)
    requires Connected(g, s) && SessionSound(g, start, s) && MayStep(s, step) && g.replayLimit >= 1
    ensures Connected(g, Do(g, s, step)) && SessionSound(g, start, Do(g, s, step))
  {
    StepKeepsConnection(g, s, step);
    hide ConnInv, SessionSound;
    match step {
      case Append(id) => AppendStaysSound(g, start, s, id);
      case SendReplayed(fate) => ReplayedSendStaysSound(g, start, s, fate);
      case SendLive(fate) => LiveSendStaysSound(g, start, s, fate);
      case Disconnect => CloseStaysSound(g, start, s);
      case _ => SilentStepStaysSound(g, start, s, step);
    }
  }

  lemma {:induction false} RunKeepsSession(g: Settings, start: Option<StreamId>, run: seq<Session>)
    requires IsRun(g, start, run) && g.replayLimit >= 1
    ensures Connected(g, run[|run| - 1]) && SessionSound(g, start, run[|run| - 1])
  {
    if |run| == 1 {
    } else {
      hide Do, MayStep, ConnInv, SessionSound;
      var front := run[..|run| - 1];
      RunKeepsSession(g, start, front);
      assert Next(g, run[|run| - 2], run[|run| - 1]);
      var step :| MayStep(front[|front| - 1], step) && run[|run| - 1] == Do(g, front[|front| - 1], step);
      StepKeepsSession(g, start, front[|front| - 1], step);
    }
  }

  /** Over any sequence of connections, to any gateways, what the browser has received is a
      gap-free and duplicate-free stretch of the stream that begins right after its cursor, if
      and only if no entry arrived on a connection that had lost an earlier one (given up on a
      send timeout, or cut off by a history read too short to reach the live queue), and none
      arrived on a connection that asked otherwise than with the last entry received. */
  lemma ReceivedIsAStretch(g: Settings, start: Option<StreamId>, run: seq<Session>)
    requires IsRun(g, start, run) && g.replayLimit >= 1
    requires run[|run| - 1].received != []
    ensures var s := run[|run| - 1];
            && RightAfter(start, s.stream, s.origin)
            && (Stretch(s.stream, s.origin, |s.received|, s.received) <==> !s.gap && !s.stale)
            && (!s.gap && !s.stale ==> Ascending(s.received))
  {
    RunKeepsSession(g, start, run);
    var s := run[|run| - 1];
    hide ConnInv, InTurn;
    if s.gap || s.stale {
      if Stretch(s.stream, s.origin, |s.received|, s.received) {
        StretchIsUnbroken(s);
      }
    } else {
      InTurnIsAStretch(g, start, s);
      StretchAscends(s.stream, s.origin, s.received);
    }
  }

  lemma InTurnIsAStretch(g: Settings, start: Option<StreamId>, s: Session)
    requires Connected(g, s) && InTurn(g, start, s) && s.received != []
    ensures Stretch(s.stream, s.origin, |s.received|, s.received)
  {
    if s.connection.Some? {
      Join(g, start, s, s.connection.value);
    }
  }

  lemma StretchAscends(stream: seq<StreamId>, first: nat, sent: seq<StreamId>)
    requires Ascending(stream) && Stretch(stream, first, |sent|, sent)
    ensures Ascending(sent)
  {
    assert forall i :: 0 <= i < |sent| ==> sent[i] == stream[first + i];
  }

  // ---- a simpler guard ----

  /** What holds while no send has timed out, and while every history read was long enough. */
  ghost predicate Calm(g: Settings, start: Option<StreamId>, s: Session) {
    && (s.gap ==> s.timedOut || s.cut)
    && (s.stale ==> s.timedOut)
    && (!s.timedOut ==> s.cursor == if s.received == [] then start else Some(s.received[|s.received| - 1]))
    && (s.connection.Some? ==>
          var c := s.connection.value;
          && (c.dropped != {} ==> s.timedOut)
          && (!c.phase.Registered? && c.begin > c.from + g.replayLimit ==> s.cut)
          && (!s.timedOut ==> c.last == s.cursor && (c.sent == [] ==> c.asked == s.cursor)))
  }

  lemma ArrivalStaysCalm(g: Settings, start: Option<StreamId>, s: Session, c: Connection, b: Connection, item: StreamId, position: nat)
    requires Calm(g, start, s) && s.connection == Some(c) && !c.phase.Registered?
    requires b.asked == c.asked && b.from == c.from && b.begin == c.begin && b.dropped == c.dropped && b.sent == c.sent
    ensures Calm(g, start, Close(Arrive(g, s, b, item, position)))
    ensures b.last == Some(item) || s.timedOut ==> Calm(g, start, Arrive(g, s, b, item, position))
  {
    var later := Arrive(g, s, b, item, position);
    assert later.received[|later.received| - 1] == item;
  }

  lemma StepKeepsCalm(g: Settings, start: Option<StreamId>, s: Session, step: Step)
    requires Calm(g, start, s) && MayStep(s, step) && Connected(g, s)
    ensures Calm(g, start, Do(g, s, step))
  {
    hide Filtered, NothingLost, HistoryFrom, HistoryTo, Offer, Arrive, ConnInv, Skip;
    match step {
      case SendReplayed(_) =>
        var c := s.connection.value;
        var b := c.(phase := Replaying(c.phase.rows[1..]), last := Some(c.phase.rows[0]));
        ArrivalStaysCalm(g, start, s, c, b, c.phase.rows[0], c.at);
        ArrivalStaysCalm(g, start, s, c, c, c.phase.rows[0], c.at);
      case SendLive(fate) => LiveSendStaysCalm(g, start, s, s.connection.value, fate);
      case _ =>
    }
  }

  lemma QueueStaysCalm(g: Settings, start: Option<StreamId>, s: Session, c: Connection)
    requires Calm(g, start, s) && s.connection == Some(c) && c.phase.Live? && c.queue != []
    ensures c.head < c.at || c.head == c.at == c.from ==> Calm(g, start, s.(connection := Some(Skip(c))))
    ensures Calm(g, start, s.(timedOut := true))
    ensures Calm(g, start, s.(timedOut := true, connection := Some(Take(c).(dropped := c.dropped + {c.head}))))
    ensures Calm(g, start, Close(s))
  {
  }

  lemma LiveSendStaysCalm(g: Settings, start: Option<StreamId>, s: Session, c: Connection, fate: Fate)
    requires Calm(g, start, s) && MayStep(s, SendLive(fate)) && s.connection == Some(c) && ConnInv(g, s.stream, c)
    ensures Calm(g, start, Do(g, s, SendLive(fate)))
  {
    hide Filtered, NothingLost, Arrive, ConnInv, Calm, Skip;
    QueueStaysCalm(g, start, s, c);
    if Filtered(c.last, c.queue[0]) {
      SkipCases(g, s.stream, c);
    } else {
      var late := s.(timedOut := true);
      ArrivalStaysCalm(g, start, s, c, Take(c).(last := Some(c.queue[0])), c.queue[0], c.head);
      ArrivalStaysCalm(g, start, s, c, Take(c), c.queue[0], c.head);
      ArrivalStaysCalm(g, start, late, c, Take(c), c.queue[0], c.head);
    }
  }

  lemma {:induction false} RunKeepsCalm(g: Settings, start: Option<StreamId>, run: seq<Session>)
    requires IsRun(g, start, run) && g.replayLimit >= 1
    ensures Calm(g, start, run[|run| - 1])
  {
    if |run| == 1 {
    } else {
      hide Do, MayStep, Calm, ConnInv;
      var front := run[..|run| - 1];
      RunKeepsCalm(g, start, front);
      RunKeepsConnection(g, start, front);
      assert Next(g, run[|run| - 2], run[|run| - 1]);
      var step :| MayStep(front[|front| - 1], step) && run[|run| - 1] == Do(g, front[|front| - 1], step);
      StepKeepsCalm(g, start, front[|front| - 1], step);
    }
  }

  /** In particular the browser receives each entry once, in order and without gaps as long as
      no send timed out and every history read reached where the live queue began. */
  lemma ReconnectsLoseNothing(g: Settings, start: Option<StreamId>, run: seq<Session>)
    requires IsRun(g, start, run) && g.replayLimit >= 1
    requires !run[|run| - 1].timedOut && !run[|run| - 1].cut
    ensures var s := run[|run| - 1];
            s.received != [] ==>
              && s.cursor == Some(s.received[|s.received| - 1])
              && Stretch(s.stream, s.origin, |s.received|, s.received) && RightAfter(start, s.stream, s.origin)
              && Ascending(s.received)
  {
    RunKeepsCalm(g, start, run);
    if run[|run| - 1].received != [] {
      ReceivedIsAStretch(g, start, run);
    }
  }

  // ---- both flags are raised by runs ----

  function Last(run: seq<Session>): Session
    requires run != []
  {
    run[|run| - 1]
  }

  lemma OneMore(g: Settings, cursor: Option<StreamId>, run: seq<Session>, step: Step) returns (more: seq<Session>)
    requires IsRun(g, cursor, run) && MayStep(Last(run), step)
    ensures IsRun(g, cursor, more) && Last(more) == Do(g, Last(run), step)
  {
    assert Next(g, Last(run), Do(g, Last(run), step));
    more := run + [Do(g, Last(run), step)];
  }

  /** A browser without a cursor, connected to an idle stream. */
  function Waiting(): Session {
    Session([], Some(Connection(Live, None, [], false, 0, None, 0, 0, 0, 0, [], {})), None, [], 0, false, false, false, false)
  }

  lemma ReachWaiting(g: Settings) returns (run: seq<Session>)
    requires g.replayLimit >= 1
    ensures IsRun(g, None, run) && Last(run) == Waiting()
  {
    run := [NewSession(None)];
    run := OneMore(g, None, run, Connect(0));
    run := OneMore(g, None, run, ReadHistory);
    run := OneMore(g, None, run, GoLive);
  }

  /** Appends the next entry and lets the tail offer it to the idle live connection. */
  lemma OfferNext(g: Settings, run: seq<Session>, id: StreamId) returns (more: seq<Session>)
    requires IsRun(g, None, run) && MayStep(Last(run), Append(id)) && g.queueSize >= 1
    requires Last(run).connection.Some?
    requires var c := Last(run).connection.value;
             c.phase.Live? && c.queue == [] && !c.closed && c.tail == |Last(run).stream|
    ensures IsRun(g, None, more)
    ensures var s, c := Last(run), Last(run).connection.value;
            Last(more) == s.(stream := s.stream + [id], connection := Some(c.(queue := [id], tail := c.tail + 1)))
  {
    more := OneMore(g, None, run, Append(id));
    more := OneMore(g, None, more, Broadcast);
    assert Last(more).connection.value.queue == [id];
  }

  /** One timed-out send, and the browser holds the second entry of the stream but never the
      first. */
  lemma DroppedSendLeavesGap(first: StreamId, second: StreamId) returns (run: seq<Session>)
    requires Before(first, second)
    ensures IsRun(Settings(500, 256), None, run)
    ensures Last(run).stream == [first, second] && Last(run).received == [second] && Last(run).gap && !Last(run).stale
  {
    var g := Settings(500, 256);
    run := ReachWaiting(g);
    run := OfferNext(g, run, first);
    run := OneMore(g, None, run, SendLive(TimedOut(false)));
    assert Last(run).connection.value.queue == [] && Last(run).connection.value.dropped == {0};
    assert Last(run) == Session([first], Some(Connection(Live, None, [], false, 1, None, 0, 0, 0, 1, [], {0})),
                                None, [], 0, false, false, true, false);
    run := OfferNext(g, run, second);
    run := OneMore(g, None, run, SendLive(Delivered));
  }

  lemma ReceiveFirst(g: Settings, first: StreamId) returns (run: seq<Session>)
    requires g.replayLimit >= 1 && g.queueSize >= 1
    ensures IsRun(g, None, run)
    ensures Last(run) == Session([first], Some(Connection(Live, Some(first), [], false, 1, None, 0, 0, 1, 1, [first], {})),
                                 Some(first), [first], 0, false, false, false, false)
  {
    run := ReachWaiting(g);
    run := OfferNext(g, run, first);
    run := OneMore(g, None, run, SendLive(Delivered));
    assert Last(run).connection.value.queue == [] && Last(run).connection.value.sent == [first];
  }

  /** The second entry arrives although its send times out, and a heartbeat sets the browser's
      cursor back to the first. */
  lemma SetBack(g: Settings, first: StreamId, second: StreamId) returns (run: seq<Session>)
    requires Before(first, second) && g.replayLimit >= 1 && g.queueSize >= 1
    ensures IsRun(g, None, run)
    ensures Last(run) == Session([first, second], None, Some(first), [first, second], 0, false, false, true, false)
  {
    run := ReceiveFirst(g, first);
    run := OfferNext(g, run, second);
    run := OneMore(g, None, run, SendLive(TimedOut(true)));
    assert Last(run).received == [first, second] && Last(run).stream == [first, second];
    run := OneMore(g, None, run, Heartbeat);
    run := OneMore(g, None, run, Disconnect);
  }

  /** A send that timed out although the entry arrived, then a heartbeat: after a reconnect
      the entry arrives again. */
  lemma HeartbeatSetsBack(first: StreamId, second: StreamId) returns (run: seq<Session>)
    requires Before(first, second)
    ensures IsRun(Settings(500, 256), None, run)
    ensures Last(run).stream == [first, second] && Last(run).received == [first, second, second]
    ensures Last(run).stale && !Last(run).gap
  {
    var g := Settings(500, 256);
    run := SetBack(g, first, second);
    run := ReadAgain(g, run, first, second);
    run := OneMore(g, None, run, SendReplayed(Delivered));
  }

  lemma ReadAgain(g: Settings, run: seq<Session>, first: StreamId, second: StreamId) returns (more: seq<Session>)
    requires IsRun(g, None, run) && Before(first, second) && g.replayLimit >= 1
    requires Last(run) == Session([first, second], None, Some(first), [first, second], 0, false, false, true, false)
    ensures IsRun(g, None, more)
    ensures var c := Connection(Replaying([second]), Some(first), [], false, 2, Some(first), 2, 1, 1, 2, [], {});
            Last(more) == Session([first, second], Some(c), Some(first), [first, second], 0, false, false, true, false)
  {
    StartFound([first, second], first, 1);
    more := OneMore(g, None, run, Connect(2));
    more := OneMore(g, None, more, ReadHistory);
    assert [first, second][1..2] == [second];
  }
}
