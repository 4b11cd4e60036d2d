/** The identity strings: colon-joined parts that are hashed into event ids, and the keys
    built from those ids. Transaction ids, stream names, stages and model names may contain
    colons themselves.

    The hash is a parameter. Nothing but the 36 characters of its outputs and the absence of
    collisions among the strings actually hashed is asked of it. */
module Identity {
  import opened Events

  // ---- strings ----

  predicate ColonFree(s: string) {
    ':' !in s
  }

  function Digit(n: nat): char
    requires n < 10
  {
    "0123456789"[n]
  }

  function Decimal(n: nat): (s: string)
    ensures s != [] && ColonFree(s)
  {
    if n < 10 then [Digit(n)] else Decimal(n / 10) + [Digit(n % 10)]
  }

  lemma {:induction false} DecimalIsInjective(m: nat, n: nat)
    requires Decimal(m) == Decimal(n)
    ensures m == n
  {
    var s := Decimal(m);
    if m >= 10 && n >= 10 {
      assert Decimal(m / 10) == s[..|s| - 1] == Decimal(n / 10);
      DecimalIsInjective(m / 10, n / 10);
      assert Digit(m % 10) == s[|s| - 1] == Digit(n % 10);
    }
  }

  /** The parts before the first colon and after it are determined. */
  lemma SplitAtFirstColon(a: string, x: string, b: string, y: string)
    requires ColonFree(a) && ColonFree(b)
    requires a + ":" + x == b + ":" + y
    ensures a == b && x == y
  {
    var s := a + ":" + x;
    assert s[|a|] == ':' && s[|b|] == ':';
    assert forall i :: 0 <= i < |a| ==> s[i] == a[i];
    assert forall i :: 0 <= i < |b| ==> s[i] == b[i];
    assert a == s[..|a|] && b == s[..|b|];
    assert x == s[|a| + 1..] && y == s[|b| + 1..];
  }

  /** The parts after the last colon and before it are determined. */
  lemma SplitAtLastColon(x: string, a: string, y: string, b: string)
    requires ColonFree(a) && ColonFree(b)
    requires x + ":" + a == y + ":" + b
    ensures a == b && x == y
  {
    var s := x + ":" + a;
    assert s[|x|] == ':' && s[|y|] == ':';
    assert forall i :: |x| < i < |s| ==> s[i] == a[i - |x| - 1];
    assert forall i :: |y| < i < |s| ==> s[i] == b[i - |y| - 1];
    assert x == s[..|x|] && y == s[..|y|];
    assert a == s[|x| + 1..] && b == s[|y| + 1..];
  }

  lemma SplitAtWidth(a: string, x: string, b: string, y: string)
    requires |a| == |b| && a + x == b + y
    ensures a == b && x == y
  {
    assert a == (a + x)[..|a|] && b == (b + y)[..|b|];
    assert x == (a + x)[|a|..] && y == (b + y)[|b|..];
  }

  // ---- event identities ----

  datatype Parts =
    | BatchParts(stream: string, step: nat)
    | RequestParts(batchId: string, tx: string, step: nat)
    | ResultParts(requestId: string, model: string)
    | DeadLetterParts(topic: string, partition: nat, offset: nat, stage: string)

  /** An event id has 36 characters, and a Kafka topic name never holds a colon. */
  predicate WellFormed(p: Parts) {
    match p
    case BatchParts(_, _) => true
    case RequestParts(batchId, _, _) => |batchId| == 36
    case ResultParts(requestId, _) => |requestId| == 36
    case DeadLetterParts(topic, _, _, _) => ColonFree(topic)
  }

  function Family(p: Parts): string {
    match p
    case BatchParts(_, _) => "risk.graph-batch.observed.v1"
    case RequestParts(_, _, _) => "risk.scoring.requested.v1"
    case ResultParts(_, _) => "risk.scoring.completed.v1"
    case DeadLetterParts(_, _, _, _) => "risk.dead-lettered.v1"
  }

  function Joined(parts: seq<string>): string
    requires parts != []
  {
    if |parts| == 1 then parts[0] else parts[0] + ":" + Joined(parts[1..])
  }

  function Tail(p: Parts): (parts: seq<string>)
    ensures parts != []
  {
    match p
    case BatchParts(stream, step) => [stream, Decimal(step)]
    case RequestParts(batchId, tx, step) => [batchId, tx, Decimal(step)]
    case ResultParts(requestId, model) => [requestId, model]
    case DeadLetterParts(topic, partition, offset, stage) => [topic, Decimal(partition), Decimal(offset), stage]
  }

  function IdentityString(p: Parts): string {
    Joined([Family(p)] + Tail(p))
  }

  lemma FamilyIsColonFree(p: Parts)
    ensures ColonFree(Family(p))
  {
  }

  lemma FamilyComesFirst(p: Parts)
    ensures IdentityString(p) == Family(p) + ":" + Joined(Tail(p)) && ColonFree(Family(p))
  {
    hide Family, ColonFree, Tail;
    FamilyIsColonFree(p);
    JoinedHead(Family(p), Tail(p));
  }

  lemma JoinedTwo(a: string, b: string)
    ensures Joined([a, b]) == a + ":" + b
  {
    assert [a, b][1..] == [b];
  }

  lemma JoinedThree(a: string, b: string, c: string)
    ensures Joined([a, b, c]) == a + ":" + (b + ":" + c)
  {
    assert [a, b, c][1..] == [b, c];
    JoinedTwo(b, c);
  }

  lemma JoinedFour(a: string, b: string, c: string, d: string)
    ensures Joined([a, b, c, d]) == a + ":" + (b + ":" + (c + ":" + d))
  {
    assert [a, b, c, d][1..] == [b, c, d];
    JoinedThree(b, c, d);
  }

  lemma FamiliesDiffer(p: Parts, q: Parts)
    requires Family(p) == Family(q)
    ensures p.BatchParts? == q.BatchParts? && p.RequestParts? == q.RequestParts?
    ensures p.ResultParts? == q.ResultParts? && p.DeadLetterParts? == q.DeadLetterParts?
  {
    assert "risk.graph-batch.observed.v1"[5] == 'g';
    assert "risk.scoring.requested.v1"[13] == 'r';
    assert "risk.scoring.completed.v1"[13] == 'c';
    assert "risk.dead-lettered.v1"[5] == 'd';
  }

  /** Two identities with the same string are the same identity, within and across families,
      whatever colons their parts hold. */
  lemma IdentityStringsAreInjective(p: Parts, q: Parts)
    requires WellFormed(p) && WellFormed(q)
    requires IdentityString(p) == IdentityString(q)
    ensures p == q
  {
    hide Joined, Decimal;
    FamilyComesFirst(p);
    FamilyComesFirst(q);
    SplitAtFirstColon(Family(p), Joined(Tail(p)), Family(q), Joined(Tail(q)));
    FamiliesDiffer(p, q);
    hide Family;
    match p {
      case BatchParts(_, _) => SameBatch(p, q);
      case RequestParts(_, _, _) => SameRequest(p, q);
      case ResultParts(_, _) => SameResult(p, q);
      case DeadLetterParts(_, _, _, _) => SameDeadLetter(p, q);
    }
  }

  lemma SameBatch(p: Parts, q: Parts)
    requires p.BatchParts? && q.BatchParts? && Joined(Tail(p)) == Joined(Tail(q))
    ensures p == q
  {
    hide Joined, Decimal;
    JoinedTwo(p.stream, Decimal(p.step));
    JoinedTwo(q.stream, Decimal(q.step));
    SplitAtLastColon(p.stream, Decimal(p.step), q.stream, Decimal(q.step));
    DecimalIsInjective(p.step, q.step);
  }

  lemma SameRequest(p: Parts, q: Parts)
    requires p.RequestParts? && q.RequestParts? && WellFormed(p) && WellFormed(q)
    requires Joined(Tail(p)) == Joined(Tail(q))
    ensures p == q
  {
    hide Joined, Decimal;
    var x, y := p.tx + ":" + Decimal(p.step), q.tx + ":" + Decimal(q.step);
    JoinedThree(p.batchId, p.tx, Decimal(p.step));
    JoinedThree(q.batchId, q.tx, Decimal(q.step));
    SplitAtWidth(p.batchId + ":", x, q.batchId + ":", y);
    SplitAtWidth(p.batchId, ":", q.batchId, ":");
    SplitAtLastColon(p.tx, Decimal(p.step), q.tx, Decimal(q.step));
    DecimalIsInjective(p.step, q.step);
  }

  lemma SameResult(p: Parts, q: Parts)
    requires p.ResultParts? && q.ResultParts? && WellFormed(p) && WellFormed(q)
    requires Joined(Tail(p)) == Joined(Tail(q))
    ensures p == q
  {
    hide Joined;
    JoinedTwo(p.requestId, p.model);
    JoinedTwo(q.requestId, q.model);
    SplitAtWidth(p.requestId + ":", p.model, q.requestId + ":", q.model);
    SplitAtWidth(p.requestId, ":", q.requestId, ":");
  }

  lemma SameDeadLetter(p: Parts, q: Parts)
    requires p.DeadLetterParts? && q.DeadLetterParts? && WellFormed(p) && WellFormed(q)
    requires Joined(Tail(p)) == Joined(Tail(q))
    ensures p == q
  {
    hide Joined, Decimal;
    var x, y := Decimal(p.offset) + ":" + p.stage, Decimal(q.offset) + ":" + q.stage;
    JoinedFour(p.topic, Decimal(p.partition), Decimal(p.offset), p.stage);
    JoinedFour(q.topic, Decimal(q.partition), Decimal(q.offset), q.stage);
    SplitAtFirstColon(p.topic, Decimal(p.partition) + ":" + x, q.topic, Decimal(q.partition) + ":" + y);
    SplitAtFirstColon(Decimal(p.partition), x, Decimal(q.partition), y);
    SplitAtFirstColon(Decimal(p.offset), p.stage, Decimal(q.offset), q.stage);
    DecimalIsInjective(p.partition, q.partition);
    DecimalIsInjective(p.offset, q.offset);
  }

  // ---- event ids ----

  /** The id text the program computes for an event, hashing at every level. */
  function IdText(hash: string -> string, id: EventId): string
    decreases id, 1
  {
    hash(IdentityString(PartsOf(hash, id)))
  }

  function PartsOf(hash: string -> string, id: EventId): Parts
    decreases id, 0
  {
    match id
    case Observed(stream, step) => BatchParts(stream, step)
    case Requested(batch, tx, step) => RequestParts(IdText(hash, batch), tx, step)
    case Completed(request, model) => ResultParts(IdText(hash, request), model)
  }

  /** Every string hashed on the way to an id. */
  function Hashed(hash: string -> string, id: EventId): set<string> {
    {IdentityString(PartsOf(hash, id))} +
    match id
    case Observed(_, _) => {}
    case Requested(batch, _, _) => Hashed(hash, batch)
    case Completed(request, _) => Hashed(hash, request)
  }

  ghost predicate NoCollision(hash: string -> string, strings: set<string>) {
    && (forall s :: s in strings ==> |hash(s)| == 36)
    && (forall s, t :: s in strings && t in strings && hash(s) == hash(t) ==> s == t)
  }

  lemma FewerStrings(hash: string -> string, few: set<string>, more: set<string>)
    requires few <= more && NoCollision(hash, more)
    ensures NoCollision(hash, few)
  {
  }

  lemma IdsAreWide(hash: string -> string, id: EventId)
    requires NoCollision(hash, Hashed(hash, id))
    ensures |IdText(hash, id)| == 36 && WellFormed(PartsOf(hash, id))
  {
    match id {
      case Observed(_, _) =>
      case Requested(batch, _, _) => assert IdentityString(PartsOf(hash, batch)) in Hashed(hash, id);
      case Completed(request, _) => assert IdentityString(PartsOf(hash, request)) in Hashed(hash, id);
    }
    assert IdentityString(PartsOf(hash, id)) in Hashed(hash, id);
  }

  /** As long as the hash does not collide on the strings it was given, two events with the
      same id text are the same event: keeping ids as tuples loses nothing. */
  lemma {:induction false} IdTextsAreInjective(hash: string -> string, a: EventId, b: EventId)
    requires NoCollision(hash, Hashed(hash, a) + Hashed(hash, b))
    requires IdText(hash, a) == IdText(hash, b)
    ensures a == b
  {
    hide IdentityString;
    IdsAreWide(hash, a);
    IdsAreWide(hash, b);
    assert IdentityString(PartsOf(hash, a)) == IdentityString(PartsOf(hash, b));
    IdentityStringsAreInjective(PartsOf(hash, a), PartsOf(hash, b));
    if a.Requested? {
      assert Hashed(hash, a.batch) <= Hashed(hash, a) && Hashed(hash, b.batch) <= Hashed(hash, b);
      IdTextsAreInjective(hash, a.batch, b.batch);
    } else if a.Completed? {
      assert Hashed(hash, a.request) <= Hashed(hash, a) && Hashed(hash, b.request) <= Hashed(hash, b);
      IdTextsAreInjective(hash, a.request, b.request);
    }
  }

  // ---- keys built from ids ----

  function RedisOutboxKey(id: string): string {
    "redis:" + id
  }

  /** The rows of the one outbox table that the two relays read never share a primary key. */
  lemma OutboxKeysAreDisjoint(hash: string -> string, request: EventId, result: EventId, other: EventId)
    requires NoCollision(hash, Hashed(hash, request) + Hashed(hash, result) + Hashed(hash, other))
    ensures IdText(hash, request) != RedisOutboxKey(IdText(hash, result))
    ensures RedisOutboxKey(IdText(hash, result)) == RedisOutboxKey(IdText(hash, other)) ==> result == other
  {
    hide IdText, Hashed, PartsOf, WellFormed, NoCollision;
    var all := Hashed(hash, request) + Hashed(hash, result) + Hashed(hash, other);
    FewerStrings(hash, Hashed(hash, request), all);
    FewerStrings(hash, Hashed(hash, result), all);
    FewerStrings(hash, Hashed(hash, other), all);
    FewerStrings(hash, Hashed(hash, result) + Hashed(hash, other), all);
    IdsAreWide(hash, request);
    IdsAreWide(hash, result);
    var a, b := IdText(hash, result), IdText(hash, other);
    if RedisOutboxKey(a) == RedisOutboxKey(b) {
      IdsAreWide(hash, other);
      SplitAtWidth("redis:", a, "redis:", b);
      IdTextsAreInjective(hash, result, other);
    }
  }

  function DedupKey(stream: string, id: string): string {
    stream + ":published:" + id
  }

  /** The key that remembers a publication names one stream and one event. */
  lemma DedupKeysAreInjective(stream: string, id: string, otherStream: string, otherId: string)
    requires |id| == |otherId|
    requires DedupKey(stream, id) == DedupKey(otherStream, otherId)
    ensures stream == otherStream && id == otherId
  {
    SplitAtWidth(stream + ":published:", id, otherStream + ":published:", otherId);
    SplitAtWidth(stream, ":published:", otherStream, ":published:");
  }

  // ---- cache keys ----

  datatype CacheParts = CacheParts(tx: string, hops: nat, maxNodes: nat, maxEdges: nat, watermark: nat, model: string)

  function CacheKey(p: CacheParts): string {
    Joined(["risk:subgraph:v1", p.tx, Decimal(p.hops), Decimal(p.maxNodes), Decimal(p.maxEdges),
            Decimal(p.watermark), p.model])
  }

  predicate ValidTxId(tx: string) {
    && 1 <= |tx| <= 64
    && forall c :: c in tx ==> 'A' <= c <= 'Z' || 'a' <= c <= 'z' || '0' <= c <= '9' || c == '_' || c == '-'
  }

  lemma CacheKeyParts(p: CacheParts)
    ensures CacheKey(p) == "risk:subgraph:v1" + ":" + (p.tx + ":" + (Decimal(p.hops) + ":"
                           + (Decimal(p.maxNodes) + ":" + (Decimal(p.maxEdges) + ":" + (Decimal(p.watermark) + ":" + p.model)))))
  {
    var rest := [Decimal(p.maxEdges), Decimal(p.watermark), p.model];
    var parts := ["risk:subgraph:v1", p.tx, Decimal(p.hops), Decimal(p.maxNodes)] + rest;
    JoinedThree(rest[0], rest[1], rest[2]);
    JoinedHead(parts[3], rest);
    JoinedHead(parts[2], [parts[3]] + rest);
    JoinedHead(parts[1], [parts[2]] + ([parts[3]] + rest));
    JoinedHead(parts[0], [parts[1]] + ([parts[2]] + ([parts[3]] + rest)));
    assert parts == ["risk:subgraph:v1", p.tx, Decimal(p.hops), Decimal(p.maxNodes), Decimal(p.maxEdges),
                     Decimal(p.watermark), p.model];
    assert parts == [parts[0]] + ([parts[1]] + ([parts[2]] + ([parts[3]] + rest)));
  }

  lemma JoinedHead(head: string, rest: seq<string>)
    requires rest != []
    ensures Joined([head] + rest) == head + ":" + Joined(rest)
  {
    assert ([head] + rest)[1..] == rest;
  }

  /** A cache key names one query at one watermark, for any model name, as long as the
      transaction id passed validation. */
  lemma CacheKeysAreInjective(p: CacheParts, q: CacheParts)
    requires ValidTxId(p.tx) && ValidTxId(q.tx)
    requires CacheKey(p) == CacheKey(q)
    ensures p == q
  {
    hide Joined, Decimal;
    CacheKeyParts(p);
    CacheKeyParts(q);
    hide CacheKey;
    var e, f := Decimal(p.watermark) + ":" + p.model, Decimal(q.watermark) + ":" + q.model;
    var c, d := Decimal(p.maxEdges) + ":" + e, Decimal(q.maxEdges) + ":" + f;
    var a, b := Decimal(p.maxNodes) + ":" + c, Decimal(q.maxNodes) + ":" + d;
    var x, y := Decimal(p.hops) + ":" + a, Decimal(q.hops) + ":" + b;
    SplitAtWidth("risk:subgraph:v1" + ":", p.tx + ":" + x, "risk:subgraph:v1" + ":", q.tx + ":" + y);
    SplitAtFirstColon(p.tx, x, q.tx, y);
    SplitAtFirstColon(Decimal(p.hops), a, Decimal(q.hops), b);
    SplitAtFirstColon(Decimal(p.maxNodes), c, Decimal(q.maxNodes), d);
    SplitAtFirstColon(Decimal(p.maxEdges), e, Decimal(q.maxEdges), f);
    SplitAtFirstColon(Decimal(p.watermark), p.model, Decimal(q.watermark), q.model);
    DecimalIsInjective(p.hops, q.hops);
    DecimalIsInjective(p.maxNodes, q.maxNodes);
    DecimalIsInjective(p.maxEdges, q.maxEdges);
    DecimalIsInjective(p.watermark, q.watermark);
  }

  /** Without the validation different queries would share a key: a colon moves a number from
      the transaction id to the parameters. */
  lemma UnvalidatedIdsCollide(tx: TxId, hops: nat, maxNodes: nat, maxEdges: nat, watermark: nat, more: nat,
                              model: string)
    ensures var p := CacheParts(tx, hops, maxNodes, maxEdges, watermark, Decimal(more) + ":" + model);
            var q := CacheParts(tx + ":" + Decimal(hops), maxNodes, maxEdges, watermark, more, model);
            CacheKey(p) == CacheKey(q) && p != q
  {
    hide CacheKey, Decimal, Joined;
    CacheKeyParts(CacheParts(tx, hops, maxNodes, maxEdges, watermark, Decimal(more) + ":" + model));
    CacheKeyParts(CacheParts(tx + ":" + Decimal(hops), maxNodes, maxEdges, watermark, more, model));
    var rest := Decimal(maxNodes) + ":" + (Decimal(maxEdges) + ":" + (Decimal(watermark) + ":" + (Decimal(more) + ":" + model)));
    assert tx + ":" + (Decimal(hops) + ":" + rest) == tx + ":" + Decimal(hops) + ":" + rest;
    assert tx != tx + ":" + Decimal(hops);
  }

  /** The identity strings as the program writes them: the family, then the parts in order. */
  lemma IdentitiesAsWritten(stream: string, batchId: string, tx: string, step: nat, requestId: string, model: string)
    ensures IdentityString(BatchParts(stream, step))
            == "risk.graph-batch.observed.v1" + ":" + (stream + ":" + Decimal(step))
    ensures IdentityString(RequestParts(batchId, tx, step))
            == "risk.scoring.requested.v1" + ":" + (batchId + ":" + (tx + ":" + Decimal(step)))
    ensures IdentityString(ResultParts(requestId, model))
            == "risk.scoring.completed.v1" + ":" + (requestId + ":" + model)
  {
    hide Joined, Decimal, IdentityString, ColonFree;
    FamilyComesFirst(BatchParts(stream, step));
    FamilyComesFirst(RequestParts(batchId, tx, step));
    FamilyComesFirst(ResultParts(requestId, model));
    JoinedTwo(stream, Decimal(step));
    JoinedThree(batchId, tx, Decimal(step));
    JoinedTwo(requestId, model);
  }
}
