/** The dashboard's edge list, with a shadow set of undirected keys. */
module EdgeList {
  import opened Events
  import opened Ordering
  import opened RecencyList

  /** The sorted pair, joined by a zero character. */
  function PairKey(a: string, b: string): string {
    if StringLe(a, b) then a + "\0" + b else b + "\0" + a
  }

  function Keyed(edges: seq<Edge>): (items: seq<Item<Edge>>)
    ensures |items| == |edges|
    ensures forall i :: 0 <= i < |edges| ==> items[i] == Item(PairKey(edges[i].0, edges[i].1), edges[i])
  {
    seq(|edges|, i requires 0 <= i < |edges| => Item(PairKey(edges[i].0, edges[i].1), edges[i]))
  }

  function Keys(edges: seq<Edge>): set<string> {
    IdSet(Keyed(edges))
  }

  /** The links of a transaction that are not in the list yet, in order of first mention. */
  function NewLinks(tx: TxId, neighbors: seq<TxId>, known: set<string>): seq<Edge> {
    if neighbors == [] then []
    else
      var earlier := NewLinks(tx, neighbors[..|neighbors| - 1], known);
      var neighbor := neighbors[|neighbors| - 1];
      if PairKey(tx, neighbor) in known + Keys(earlier) then earlier else earlier + [(tx, neighbor)]
  }

  lemma PairKeyIsUndirected(a: string, b: string)
    ensures PairKey(a, b) == PairKey(b, a)
  {
    StringLeTotal(a, b);
  }

  /** Transaction ids never hold the joining character, so a key names one undirected pair. */
  lemma PairKeyNamesThePair(a: string, b: string, c: string, d: string)
    requires '\0' !in a && '\0' !in b && '\0' !in c && '\0' !in d
    ensures PairKey(a, b) == PairKey(c, d) <==> (a == c && b == d) || (a == d && b == c)
  {
    var (u, v) := if StringLe(a, b) then (a, b) else (b, a);
    var (x, y) := if StringLe(c, d) then (c, d) else (d, c);
    if PairKey(a, b) == PairKey(c, d) {
      SplitAtZero(u, v, x, y);
    }
    PairKeyIsUndirected(a, b);
  }

  lemma SplitAtZero(u: string, v: string, x: string, y: string)
    requires '\0' !in u && '\0' !in x && u + "\0" + v == x + "\0" + y
    ensures u == x && v == y
  {
    var s := u + "\0" + v;
    assert forall i :: 0 <= i < |u| ==> s[i] == u[i];
    assert forall i :: 0 <= i < |x| ==> s[i] == x[i];
    assert s[|u|] == '\0' && s[|x|] == '\0';
    assert u == s[..|u|] && x == s[..|x|];
    assert v == s[|u| + 1..] && y == s[|x| + 1..];
  }

  /** Distinct keys: no undirected pair is listed twice. */
  lemma {:induction false} NoPairTwice(edges: seq<Edge>, i: nat, j: nat)
    requires DistinctItems(Keyed(edges)) && i < j < |edges|
    ensures edges[i] != edges[j] && edges[i] != (edges[j].1, edges[j].0)
  {
    var rest := edges[1..];
    assert Keyed(edges)[1..] == Keyed(rest);
    if i == 0 {
      IdOfMember(Keyed(rest), j - 1);
      PairKeyIsUndirected(edges[j].0, edges[j].1);
    } else {
      NoPairTwice(rest, i - 1, j - 1);
    }
  }

  lemma {:induction false} IdOfMember<T(!new)>(items: seq<Item<T>>, i: nat)
    requires i < |items|
    ensures items[i].id in IdSet(items)
  {
    if i > 0 {
      IdOfMember(items[1..], i - 1);
    }
  }

  lemma {:induction false} Joined<T(!new)>(front: seq<Item<T>>, back: seq<Item<T>>)
    ensures IdSet(front + back) == IdSet(front) + IdSet(back)
    ensures DistinctItems(front) && DistinctItems(back) && IdSet(front) !! IdSet(back) ==> DistinctItems(front + back)
  {
    if front == [] {
      assert front + back == back;
    } else {
      var x, rest := front[0], front[1..];
      assert front + back == [x] + (rest + back) && front == [x] + rest;
      Joined(rest, back);
      InFront(x, rest + back, x.id);
    }
  }

  /** What one mention adds to the new links gathered so far. */
  lemma OneLinkMore(earlier: seq<Edge>, known: set<string>, link: Edge)
    requires DistinctItems(Keyed(earlier)) && Keys(earlier) !! known
    requires PairKey(link.0, link.1) !in known + Keys(earlier)
    ensures Keys(earlier + [link]) == Keys(earlier) + {PairKey(link.0, link.1)}
    ensures DistinctItems(Keyed(earlier + [link])) && Keys(earlier + [link]) !! known
  {
    assert Keyed(earlier + [link]) == Keyed(earlier) + Keyed([link]);
    assert Keyed([link]) == [Item(PairKey(link.0, link.1), link)] + [];
    Joined(Keyed(earlier), Keyed([link]));
    InFront(Item(PairKey(link.0, link.1), link), [], "");
  }

  lemma {:induction false} LinksAreNew(tx: TxId, neighbors: seq<TxId>, known: set<string>)
    ensures var added := NewLinks(tx, neighbors, known);
            && DistinctItems(Keyed(added)) && Keys(added) !! known
            && (forall e :: e in added ==> e.0 == tx && e.1 in neighbors)
            && (forall n :: n in neighbors ==> PairKey(tx, n) in known + Keys(added))
  {
    if neighbors != [] {
      var front, n := neighbors[..|neighbors| - 1], neighbors[|neighbors| - 1];
      LinksAreNew(tx, front, known);
      var earlier := NewLinks(tx, front, known);
      if PairKey(tx, n) !in known + Keys(earlier) {
        OneLinkMore(earlier, known, (tx, n));
      }
      hide PairKey, Keyed, DistinctItems, Keys;
      assert neighbors == front + [n];
    }
  }

  /** The links added keep the order in which the neighbours are mentioned. */
  lemma {:induction false} LinksKeepOrder(tx: TxId, neighbors: seq<TxId>, known: set<string>, i: nat, j: nat)
    returns (p: nat, q: nat)
    requires i < j < |NewLinks(tx, neighbors, known)|
    ensures p < q < |neighbors|
    ensures NewLinks(tx, neighbors, known)[i] == (tx, neighbors[p]) && NewLinks(tx, neighbors, known)[j] == (tx, neighbors[q])
  {
    hide PairKey, Keys;
    var last := |neighbors| - 1;
    var earlier := NewLinks(tx, neighbors[..last], known);
    if j < |earlier| {
      p, q := LinksKeepOrder(tx, neighbors[..last], known, i, j);
    } else {
      LinksAreNew(tx, neighbors[..last], known);
      assert earlier[i] in earlier;
      p :| 0 <= p < last && neighbors[p] == earlier[i].1;
      q := last;
    }
  }

  class EdgeList {
    const max: nat
    var edges: seq<Edge>
    var keys: set<string>

    ghost predicate Valid()
      reads this
    {
      |edges| <= max && DistinctItems(Keyed(edges)) && keys == Keys(edges)
    }

    constructor (max: nat)
      ensures Valid() && this.max == max && edges == []
    {
      this.max, edges, keys := max, [], {};
    }

    method Ingest(tx: TxId, neighbors: seq<TxId>)
      requires Valid()
      modifies this
      ensures Valid()
      ensures edges == FirstOf(NewLinks(tx, neighbors, Keys(old(edges))) + old(edges), max)
    {
      hide PairKey, Keyed, DistinctItems;
      var added: seq<Edge> := [];
      for i := 0 to |neighbors|
        invariant edges == old(edges)
        invariant added == NewLinks(tx, neighbors[..i], old(keys))
        invariant keys == old(keys) + Keys(added)
      {
        assert neighbors[..i + 1][..i] == neighbors[..i];
        LinksAreNew(tx, neighbors[..i], old(keys));
        var key := PairKey(tx, neighbors[i]);
        if key in keys {
          continue;
        }
        OneLinkMore(added, old(keys), (tx, neighbors[i]));
        keys := keys + {key};
        added := added + [(tx, neighbors[i])];
      }
      assert neighbors[..|neighbors|] == neighbors;
      if added == [] {
        assert added + edges == edges;
        return;
      }
      var next := added + edges;
      LinksAreNew(tx, neighbors, old(keys));
      NextEdges(added, edges, max);
      if |next| > max {
        keys := Evict(keys, next[max..]);
        edges := next[..max];
      } else {
        edges := next;
      }
    }

    static method Evict(keys: set<string>, removed: seq<Edge>) returns (left: set<string>)
      ensures left == keys - Keys(removed)
    {
      left := keys;
      for i := 0 to |removed|
        invariant left - Keys(removed[i..]) == keys - Keys(removed)
      {
        assert Keyed(removed[i..])[1..] == Keyed(removed[i + 1..]);
        left := left - {PairKey(removed[i].0, removed[i].1)};
      }
    }
  }

  lemma NextEdges(added: seq<Edge>, edges: seq<Edge>, max: nat)
    requires DistinctItems(Keyed(added)) && DistinctItems(Keyed(edges)) && Keys(added) !! Keys(edges)
    ensures var next := added + edges;
            && DistinctItems(Keyed(next)) && Keys(next) == Keys(added) + Keys(edges)
            && (|next| > max ==> DistinctItems(Keyed(next[..max])) && Keys(next[..max]) == Keys(next) - Keys(next[max..]))
  {
    hide PairKey, DistinctItems, IdSet;
    var next := added + edges;
    assert Keyed(next) == Keyed(added) + Keyed(edges);
    Joined(Keyed(added), Keyed(edges));
    if |next| > max {
      assert Keyed(next[..max]) == Keyed(next)[..max] && Keyed(next[max..]) == Keyed(next)[max..];
      IdsOfFirst(Keyed(next), max);
      PrefixIsDistinct(Keyed(next), max);
    }
  }
}
