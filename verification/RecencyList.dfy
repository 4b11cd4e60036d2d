/** The dashboard's lists of transactions, alerts and graph nodes: the latest item of each id,
    most recent first, with a shadow set of the ids. */
module RecencyList {
  datatype Item<T> = Item(id: string, body: T)

  function Without<T(!new,==)>(items: seq<Item<T>>, id: string): seq<Item<T>> {
    if items == [] then []
    else (if items[0].id == id then [] else [items[0]]) + Without(items[1..], id)
  }

  /** The latest item of each id ever seen, most recent first. */
  function MostRecentFirst<T(!new,==)>(history: seq<Item<T>>): seq<Item<T>> {
    if history == [] then []
    else
      var x := history[|history| - 1];
      [x] + Without(MostRecentFirst(history[..|history| - 1]), x.id)
  }

  function FirstOf<T>(xs: seq<T>, n: nat): seq<T> {
    if |xs| <= n then xs else xs[..n]
  }

  function IdSet<T>(items: seq<Item<T>>): set<string> {
    if items == [] then {} else {items[0].id} + IdSet(items[1..])
  }

  predicate DistinctItems<T>(items: seq<Item<T>>) {
    items == [] || (items[0].id !in IdSet(items[1..]) && DistinctItems(items[1..]))
  }

  lemma InFront<T(!new)>(x: Item<T>, rest: seq<Item<T>>, id: string)
    ensures IdSet([x] + rest) == {x.id} + IdSet(rest)
    ensures DistinctItems([x] + rest) <==> DistinctItems(rest) && x.id !in IdSet(rest)
    ensures Without([x] + rest, id) == (if x.id == id then [] else [x]) + Without(rest, id)
  {
    assert ([x] + rest)[1..] == rest;
  }

  lemma {:induction false} WithoutAbsent<T(!new)>(items: seq<Item<T>>, id: string)
    requires id !in IdSet(items)
    ensures Without(items, id) == items
  {
    if items != [] {
      WithoutAbsent(items[1..], id);
    }
  }

  lemma {:induction false} WithoutKeepsDistinct<T(!new)>(items: seq<Item<T>>, id: string)
    ensures IdSet(Without(items, id)) == IdSet(items) - {id}
    ensures DistinctItems(items) ==> DistinctItems(Without(items, id))
    ensures DistinctItems(items) ==> |Without(items, id)| == |items| - if id in IdSet(items) then 1 else 0
  {
    if items != [] {
      WithoutKeepsDistinct(items[1..], id);
      InFront(items[0], Without(items[1..], id), id);
      assert [] + Without(items[1..], id) == Without(items[1..], id);
    }
  }

  lemma {:induction false} HistoryIsDistinct<T(!new)>(history: seq<Item<T>>)
    ensures DistinctItems(MostRecentFirst(history))
  {
    if history != [] {
      HistoryIsDistinct(history[..|history| - 1]);
      var x := history[|history| - 1];
      var older := MostRecentFirst(history[..|history| - 1]);
      WithoutKeepsDistinct(older, x.id);
      InFront(x, Without(older, x.id), x.id);
    }
  }

  lemma {:induction false} WithoutKeepsOthers<T(!new)>(items: seq<Item<T>>, x: Item<T>, id: string)
    requires x in items && x.id != id
    ensures x in Without(items, id)
  {
    if items[0] != x {
      WithoutKeepsOthers(items[1..], x, id);
    }
  }

  /** Every id ever seen is there once, with the last item that carried it. */
  lemma {:induction false} HistoryKeepsTheLatest<T(!new)>(history: seq<Item<T>>, k: nat)
    requires k < |history| && forall j :: k < j < |history| ==> history[j].id != history[k].id
    ensures history[k] in MostRecentFirst(history) && DistinctItems(MostRecentFirst(history))
  {
    HistoryIsDistinct(history);
    if k < |history| - 1 {
      var front := history[..|history| - 1];
      HistoryKeepsTheLatest(front, k);
      WithoutKeepsOthers(MostRecentFirst(front), history[k], history[|history| - 1].id);
    }
  }

  /** Nothing else is there. */
  lemma {:induction false} HistoryKeepsOnlyTheLatest<T(!new)>(history: seq<Item<T>>, x: Item<T>) returns (k: nat)
    requires x in MostRecentFirst(history)
    ensures k < |history| && history[k] == x && forall j :: k < j < |history| ==> history[j].id != x.id
  {
    hide Without;
    var last := |history| - 1;
    if x == history[last] {
      k := last;
    } else {
      WithoutDrops(MostRecentFirst(history[..last]), history[last].id, x);
      k := HistoryKeepsOnlyTheLatest(history[..last], x);
    }
  }

  lemma {:induction false} WithoutDrops<T(!new)>(items: seq<Item<T>>, id: string, x: Item<T>)
    requires x in Without(items, id)
    ensures x in items && x.id != id
  {
    if x != items[0] || items[0].id == id {
      WithoutDrops(items[1..], id, x);
    }
  }

  /** Of two ids the one seen later comes first. */
  lemma {:induction false} MoreRecentComesFirst<T(!new)>(history: seq<Item<T>>, k: nat, l: nat) returns (i: nat, j: nat)
    requires k < l < |history| && forall m :: k < m < |history| ==> history[m].id != history[k].id
    requires forall m :: l < m < |history| ==> history[m].id != history[l].id
    ensures i < j < |MostRecentFirst(history)|
    ensures MostRecentFirst(history)[i] == history[l] && MostRecentFirst(history)[j] == history[k]
  {
    hide Without;
    var last := |history| - 1;
    var older := MostRecentFirst(history[..last]);
    var rest := Without(older, history[last].id);
    if l == last {
      HistoryKeepsTheLatest(history[..last], k);
      WithoutKeepsOthers(older, history[k], history[last].id);
      var m :| 0 <= m < |rest| && rest[m] == history[k];
      i, j := 0, m + 1;
    } else {
      i, j := MoreRecentComesFirst(history[..last], k, l);
      i, j := WithoutKeepsOrder(older, history[last].id, i, j);
      i, j := i + 1, j + 1;
    }
  }

  lemma {:induction false} WithoutKeepsOrder<T(!new)>(items: seq<Item<T>>, id: string, i: nat, j: nat) returns (a: nat, b: nat)
    requires i < j < |items| && items[i].id != id && items[j].id != id
    ensures a < b < |Without(items, id)| && Without(items, id)[a] == items[i] && Without(items, id)[b] == items[j]
  {
    var rest := Without(items[1..], id);
    if i == 0 {
      WithoutKeepsOthers(items[1..], items[j], id);
      var m :| 0 <= m < |rest| && rest[m] == items[j];
      a, b := 0, m + 1;
    } else {
      a, b := WithoutKeepsOrder(items[1..], id, i - 1, j - 1);
      if items[0].id != id {
        a, b := a + 1, b + 1;
      }
    }
  }

  /** Removing an id and taking a prefix commute. */
  lemma {:induction false} WithoutOfFirst<T(!new)>(items: seq<Item<T>>, id: string, n: nat)
    requires n <= |items| && DistinctItems(items)
    ensures var kept := if id in IdSet(items[..n]) then n - 1 else n;
            0 <= kept <= |Without(items, id)| && Without(items[..n], id) == Without(items, id)[..kept]
  {
    if n == 0 {
      assert items[..n] == [];
    } else {
      var x, rest := items[0], items[1..];
      assert items[..n] == [x] + rest[..n - 1] && items == [x] + rest;
      InFront(x, rest, id);
      InFront(x, rest[..n - 1], id);
      WithoutOfFirst(rest, id, n - 1);
      hide Without, DistinctItems;
      if x.id == id {
        IdsOfFirst(rest, n - 1);
      }
      hide IdSet;
    }
  }

  lemma {:induction false} IdsOfFirst<T(!new)>(items: seq<Item<T>>, n: nat)
    requires n <= |items|
    ensures IdSet(items) == IdSet(items[..n]) + IdSet(items[n..])
    ensures DistinctItems(items) ==> IdSet(items[..n]) !! IdSet(items[n..])
  {
    if n == 0 {
      assert items[..n] == [] && items[n..] == items;
    } else {
      var x, rest := items[0], items[1..];
      assert items[..n] == [x] + rest[..n - 1] && items[n..] == rest[n - 1..];
      InFront(x, rest[..n - 1], x.id);
      IdsOfFirst(rest, n - 1);
    }
  }

  /** Keeping only the first `max` loses nothing that a later update would bring back. */
  lemma OneMoreIngested<T(!new)>(older: seq<Item<T>>, x: Item<T>, max: nat)
    requires max >= 1 && DistinctItems(older)
    ensures var kept := FirstOf(older, max);
            FirstOf([x] + Without(older, x.id), max)
            == if x.id in IdSet(kept) then [x] + Without(kept, x.id) else FirstOf([x] + kept, max)
  {
    var kept := FirstOf(older, max);
    WithoutKeepsDistinct(older, x.id);
    var n := if |older| <= max then |older| else max;
    assert kept == older[..n];
    WithoutOfFirst(older, x.id, n);
    IdsOfFirst(older, n);
    if x.id !in IdSet(kept) {
      WithoutAbsent(kept, x.id);
    }
    hide Without, IdSet, DistinctItems;
    PrefixAfterOne(x, Without(older, x.id), max);
    PrefixAfterOne(x, kept, max);
  }

  lemma PrefixAfterOne<T>(x: T, rest: seq<T>, max: nat)
    requires max >= 1
    ensures FirstOf([x] + rest, max) == [x] + FirstOf(rest, max - 1)
  {
  }

  class RecencyList<T(!new,==)> {
    const max: nat
    var items: seq<Item<T>>
    var ids: set<string>
    ghost var history: seq<Item<T>>

    /** The list is the first `max` of all ids in most-recent-first order, and the shadow set
        holds exactly its ids. */
    ghost predicate Valid()
      reads this
    {
      && max >= 1
      && items == FirstOf(MostRecentFirst(history), max)
      && ids == IdSet(items)
    }

    constructor (max: nat)
      requires max >= 1
      ensures Valid() && this.max == max && history == []
    {
      this.max, items, ids, history := max, [], {}, [];
    }

    method Ingest(tx: Item<T>)
      requires Valid()
      modifies this
      ensures Valid() && history == old(history) + [tx]
    {
      HistoryIsDistinct(history);
      OneMoreIngested(MostRecentFirst(history), tx, max);
      history := history + [tx];
      assert history[..|history| - 1] == old(history);
      if tx.id in ids {
        SameIds(items, tx);
        items := [tx] + Without(items, tx.id);
        return;
      }
      var next := [tx] + items;
      ids := ids + {tx.id};
      DistinctNext(old(history), tx, max);
      if |next| > max {
        ids := Evict(ids, next[max..]);
        items := next[..max];
      } else {
        items := next;
      }
    }

    static method Evict(ids: set<string>, removed: seq<Item<T>>) returns (left: set<string>)
      ensures left == ids - IdSet(removed)
    {
      left := ids;
      for i := 0 to |removed|
        invariant left - IdSet(removed[i..]) == ids - IdSet(removed)
      {
        assert removed[i..] == [removed[i]] + removed[i + 1..];
        left := left - {removed[i].id};
      }
    }
  }

  lemma SameIds<T(!new)>(items: seq<Item<T>>, tx: Item<T>)
    requires tx.id in IdSet(items)
    ensures IdSet([tx] + Without(items, tx.id)) == IdSet(items)
  {
    WithoutKeepsDistinct(items, tx.id);
    InFront(tx, Without(items, tx.id), tx.id);
  }

  lemma {:induction false} PrefixIsDistinct<T(!new)>(items: seq<Item<T>>, n: nat)
    requires n <= |items| && DistinctItems(items)
    ensures DistinctItems(items[..n])
  {
    if n > 0 {
      var x, rest := items[0], items[1..];
      assert items[..n] == [x] + rest[..n - 1];
      PrefixIsDistinct(rest, n - 1);
      IdsOfFirst(rest, n - 1);
      InFront(x, rest[..n - 1], x.id);
    }
  }

  /** With a new id in front, cutting the list removes exactly the ids cut off. */
  lemma DistinctNext<T(!new)>(history: seq<Item<T>>, tx: Item<T>, max: nat)
    requires max >= 1
    ensures var kept := FirstOf(MostRecentFirst(history), max);
            var next := [tx] + kept;
            tx.id !in IdSet(kept) ==>
              && IdSet(next) == IdSet(kept) + {tx.id}
              && (|next| > max ==> IdSet(next[..max]) == IdSet(next) - IdSet(next[max..]))
  {
    HistoryIsDistinct(history);
    var kept := FirstOf(MostRecentFirst(history), max);
    var n := |kept|;
    assert kept == MostRecentFirst(history)[..n];
    PrefixIsDistinct(MostRecentFirst(history), n);
    InFront(tx, kept, tx.id);
    hide MostRecentFirst, DistinctItems, IdSet, Without;
    if n + 1 > max && tx.id !in IdSet(kept) {
      IdsOfFirst([tx] + kept, max);
    }
  }
}
