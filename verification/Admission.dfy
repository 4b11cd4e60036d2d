/** Which transactions a level of the bounded search admits when the node limit cuts it. */
module Admission {
  import opened Events
  import opened Tables
  import opened Subgraph

  /** The transactions the rows of a level mention, source before target. */
  function Mentions(rows: seq<Edge>): seq<TxId> {
    if rows == [] then []
    else Mentions(rows[..|rows| - 1]) + [rows[|rows| - 1].0] + [rows[|rows| - 1].1]
  }

  /** The unknown ones among them, each where it is first mentioned. */
  function FirstMentions(known: set<TxId>, ids: seq<TxId>): seq<TxId> {
    if ids == [] then []
    else
      var earlier, last := FirstMentions(known, ids[..|ids| - 1]), ids[|ids| - 1];
      if last in known || last in earlier then earlier else earlier + [last]
  }

  ghost function Elements(ids: seq<TxId>): set<TxId> {
    set tx | tx in ids
  }

  function Room(s: Search, maxNodes: nat): nat {
    if |s.visited| >= maxNodes then 0 else maxNodes - |s.visited|
  }

  /** What the search holds after some mentions: the first new ones, as far as there is room. */
  ghost predicate AdmitsFirst(s: Search, ids: seq<TxId>, maxNodes: nat, after: Search) {
    var unseen, room := FirstMentions(s.visited, ids), Room(s, maxNodes);
    && after.visited == s.visited + Elements(Admitted(unseen, room))
    && after.next == s.next + Elements(Admitted(unseen, room))
    && after.frontier == s.frontier
    && (after.truncated <==> s.truncated || |unseen| > room)
  }

  lemma {:induction false} FirstMentionsAreNew(known: set<TxId>, ids: seq<TxId>)
    ensures var unseen := FirstMentions(known, ids);
            && (forall tx :: tx in unseen <==> tx in ids && tx !in known)
            && (forall i, j :: 0 <= i < j < |unseen| ==> unseen[i] != unseen[j])
  {
    if ids != [] {
      FirstMentionsAreNew(known, ids[..|ids| - 1]);
      assert ids == ids[..|ids| - 1] + [ids[|ids| - 1]];
    }
  }

  lemma {:induction false} DistinctElements(ids: seq<TxId>)
    requires forall i, j :: 0 <= i < j < |ids| ==> ids[i] != ids[j]
    ensures |Elements(ids)| == |ids|
  {
    if ids != [] {
      var front, last := ids[..|ids| - 1], ids[|ids| - 1];
      assert ids == front + [last];
      DistinctElements(front);
      assert Elements(ids) == Elements(front) + {last};
      assert last !in Elements(front);
    }
  }

  ghost function Admitted(unseen: seq<TxId>, room: nat): seq<TxId> {
    if |unseen| <= room then unseen else unseen[..room]
  }

  lemma OneMoreUnseen(known: set<TxId>, ids: seq<TxId>, tx: TxId)
    ensures FirstMentions(known, ids + [tx])
            == FirstMentions(known, ids) + if tx in known || tx in FirstMentions(known, ids) then [] else [tx]
  {
    assert (ids + [tx])[..|ids|] == ids;
    assert FirstMentions(known, ids) + [] == FirstMentions(known, ids);
  }

  lemma RoomLeft(known: set<TxId>, unseen: seq<TxId>, room: nat)
    requires forall tx :: tx in unseen ==> tx !in known
    requires forall i, j :: 0 <= i < j < |unseen| ==> unseen[i] != unseen[j]
    ensures |known + Elements(Admitted(unseen, room))| == |known| + |Admitted(unseen, room)|
    ensures |Admitted(unseen, room)| == if |unseen| <= room then |unseen| else room
  {
    DistinctElements(Admitted(unseen, room));
    assert known !! Elements(Admitted(unseen, room));
  }

  lemma ElementsOfMore(ids: seq<TxId>, tx: TxId)
    ensures Elements(ids + [tx]) == Elements(ids) + {tx}
  {
  }

  lemma OneMoreMention(s: Search, ids: seq<TxId>, tx: TxId, maxNodes: nat, middle: Search)
    requires AdmitsFirst(s, ids, maxNodes, middle)
    ensures AdmitsFirst(s, ids + [tx], maxNodes, Admit(middle, tx, maxNodes))
  {
    hide FirstMentions, Elements, AdmitsFirst;
    OneMoreUnseen(s.visited, ids, tx);
    if tx in s.visited || tx in FirstMentions(s.visited, ids) {
      MentionedAgain(s, ids, tx, maxNodes, middle);
    } else {
      MentionedFirst(s, ids, tx, maxNodes, middle);
    }
  }

  lemma MentionedAgain(s: Search, ids: seq<TxId>, tx: TxId, maxNodes: nat, middle: Search)
    requires AdmitsFirst(s, ids, maxNodes, middle)
    requires tx in s.visited || tx in FirstMentions(s.visited, ids)
    ensures AdmitsFirst(s, ids + [tx], maxNodes, Admit(middle, tx, maxNodes))
  {
    hide FirstMentions, Elements, Admitted;
    var unseen, room := FirstMentions(s.visited, ids), Room(s, maxNodes);
    FirstMentionsAreNew(s.visited, ids);
    OneMoreUnseen(s.visited, ids, tx);
    assert unseen + [] == unseen;
    RoomLeft(s.visited, unseen, room);
    AdmittedMember(unseen, room, tx);
  }

  lemma MentionedFirst(s: Search, ids: seq<TxId>, tx: TxId, maxNodes: nat, middle: Search)
    requires AdmitsFirst(s, ids, maxNodes, middle)
    requires tx !in s.visited && tx !in FirstMentions(s.visited, ids)
    ensures AdmitsFirst(s, ids + [tx], maxNodes, Admit(middle, tx, maxNodes))
  {
    hide FirstMentions, Elements, Admitted;
    var unseen, room := FirstMentions(s.visited, ids), Room(s, maxNodes);
    FirstMentionsAreNew(s.visited, ids);
    OneMoreUnseen(s.visited, ids, tx);
    RoomLeft(s.visited, unseen, room);
    AdmittedMember(unseen, room, tx);
    AdmittedOfMore(unseen, tx, room);
    ElementsOfMore(unseen, tx);
  }

  lemma AdmittedOfMore(unseen: seq<TxId>, tx: TxId, room: nat)
    ensures Admitted(unseen + [tx], room) == if |unseen| < room then unseen + [tx] else Admitted(unseen, room)
    ensures |Admitted(unseen, room)| == if |unseen| <= room then |unseen| else room
    ensures |unseen| < room ==> Admitted(unseen, room) == unseen
  {
    if |unseen| >= room {
      assert (unseen + [tx])[..room] == unseen[..room];
    }
  }

  lemma NoRows(s: Search, maxNodes: nat)
    ensures ScanRows(s, [], maxNodes) == s && Mentions([]) == [] && EdgeSet([]) == {}
  {
  }

  lemma OneMoreRow(s: Search, front: seq<Edge>, row: Edge, maxNodes: nat)
    ensures Mentions(front + [row]) == Mentions(front) + [row.0] + [row.1]
    ensures EdgeSet(front + [row]) == EdgeSet(front) + {row}
    ensures var before := ScanRows(s, front, maxNodes);
            var seen := before.(discovered := before.discovered + {row});
            && ScanRows(s, front + [row], maxNodes) == Admit(Admit(seen, row.0, maxNodes), row.1, maxNodes)
            && ScanRows(s, front + [row], maxNodes).discovered == before.discovered + {row}
  {
    assert (front + [row])[..|front|] == front;
  }

  lemma NothingMentioned(s: Search, maxNodes: nat)
    ensures AdmitsFirst(s, [], maxNodes, s)
  {
    assert Elements([]) == {};
  }

  lemma DiscoveryAdmitsNothing(s: Search, ids: seq<TxId>, maxNodes: nat, before: Search, after: Search)
    requires AdmitsFirst(s, ids, maxNodes, before) && after == before.(discovered := after.discovered)
    ensures AdmitsFirst(s, ids, maxNodes, after)
  {
  }

  lemma AdmittedMember(unseen: seq<TxId>, room: nat, tx: TxId)
    ensures tx in Elements(Admitted(unseen, room)) ==> tx in unseen
    ensures tx in unseen && |unseen| <= room ==> tx in Elements(Admitted(unseen, room))
  {
  }

  /** A level admits the transactions its rows mention in the order of first mention, source
      before target, as many as there is room for; it is marked truncated exactly when there
      is one more; and it discovers every row. */
  lemma {:induction false} LevelAdmitsFirst(s: Search, rows: seq<Edge>, maxNodes: nat)
    ensures AdmitsFirst(s, Mentions(rows), maxNodes, ScanRows(s, rows, maxNodes))
    ensures ScanRows(s, rows, maxNodes).discovered == s.discovered + EdgeSet(rows)
  {
    hide AdmitsFirst, ScanRows, Mentions, EdgeSet, Admit;
    if rows == [] {
      NoRows(s, maxNodes);
      NothingMentioned(s, maxNodes);
    } else {
      var front, last := rows[..|rows| - 1], rows[|rows| - 1];
      LevelAdmitsFirst(s, front, maxNodes);
      var before := ScanRows(s, front, maxNodes);
      var seen := before.(discovered := before.discovered + {last});
      DiscoveryAdmitsNothing(s, Mentions(front), maxNodes, before, seen);
      OneMoreMention(s, Mentions(front), last.0, maxNodes, seen);
      OneMoreMention(s, Mentions(front) + [last.0], last.1, maxNodes, Admit(seen, last.0, maxNodes));
      assert rows == front + [last];
      OneMoreRow(s, front, last, maxNodes);
    }
  }
}
