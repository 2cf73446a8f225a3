/** The time-stamped key/value cache of `internal/pokecache`.

    Each entry records the instant it was added; a periodic reap pass drops
    the entries older than the cache's interval. The mutex and the ticker
    goroutine are abstracted away: every operation below is one atomic step,
    and the clock is an explicit `now` argument (a monotonic clock reading in
    nanoseconds, like `time.Time`; a `time.Duration` is an integer number of
    nanoseconds too). */
module PokeCache {
  import opened Wrappers

  /** Go's `[]byte`; the `nil` slice is the empty sequence. */
  type Bytes = seq<bv8>

  /** `cacheEntry`: the stored value and the instant it was added. */
  datatype Entry = Entry(createdAt: int, val: Bytes)

  /** `Cache`: the entries by key and the reap interval. */
  datatype Cache = Cache(items: map<string, Entry>, interval: int)

  /** The two results of `Get`: the value and whether the key was present. */
  datatype Lookup = Lookup(val: Bytes, found: bool)

  /** The reap loop's age test: strictly older than the interval. */
  predicate Expired(e: Entry, now: int, interval: int) {
    now - e.createdAt > interval
  }

  /** `NewCache`: an empty cache reaping with the given interval. The ticker
      started for the reap loop panics on a non-positive interval, so the
      interval must be positive. */
  function NewCache(interval: int): (c: Cache)
    requires interval > 0
    ensures forall key :: !Get(c, key).found
    ensures c.interval == interval
  {
    Cache(map[], interval)
  }

  /** `Get`: the stored value and `true`, or `nil` and `false` on a miss. */
  function Get(c: Cache, key: string): (r: Lookup)
    ensures r.found <==> key in c.items
    ensures r.found ==> r.val == c.items[key].val
    ensures !r.found ==> r.val == []
  {
    if key in c.items then Lookup(c.items[key].val, true) else Lookup([], false)
  }

  /** `Add`: stores `val` under `key`, stamped `now`, replacing any earlier entry. */
  function Add(c: Cache, key: string, val: Bytes, now: int): (r: Cache)
    ensures Get(r, key) == Lookup(val, true)
    ensures key in r.items && r.items[key].createdAt == now
    ensures forall k :: k != key ==> (k in r.items <==> k in c.items)
    ensures forall k :: k != key && k in c.items ==> r.items[k] == c.items[k]
    ensures r.interval == c.interval
  {
    Cache(c.items[key := Entry(now, val)], c.interval)
  }

  /** One tick of the reap loop at time `now`: the entries not older than the
      interval, unchanged, and nothing else. */
  function Reap(c: Cache, now: int): (r: Cache)
    ensures forall k :: k in r.items <==> k in c.items && !Expired(c.items[k], now, c.interval)
    ensures forall k :: k in r.items ==> r.items[k] == c.items[k]
    ensures forall k :: k in r.items ==> now - r.items[k].createdAt <= r.interval
    ensures r.interval == c.interval
  {
    Cache(map k | k in c.items && !Expired(c.items[k], now, c.interval) :: c.items[k], c.interval)
  }

  /** The clock reading of the last visit of a pass, or its start when the
      cache is empty and nothing is visited. */
  function LastReading(start: int, readings: seq<int>): int {
    if |readings| == 0 then start else readings[|readings| - 1]
  }

  /** The reap loop body as written: the pass starts at `start`, visits the
      keys in an arbitrary order (Go's map iteration order is unspecified),
      reads the clock again at each visit (`readings[i]` at the `i`-th, never
      going backwards) and deletes the visited entry when it is expired at
      that reading. Which entries go may depend on the order, but the result
      always lies between the pass `Reap` at the last reading and the pass at
      the start; on a clock that does not move it is exactly `Reap`. */
  method ReapPass(c: Cache, start: int, readings: seq<int>) returns (r: Cache)
    requires |readings| == |c.items|
    requires forall i :: 0 <= i < |readings| ==> start <= readings[i]
    requires forall i, j :: 0 <= i <= j < |readings| ==> readings[i] <= readings[j]
    ensures Reap(c, LastReading(start, readings)).items.Keys <= r.items.Keys
    ensures r.items.Keys <= Reap(c, start).items.Keys
    ensures forall k :: k in r.items ==> r.items[k] == c.items[k]
    ensures r.interval == c.interval
    ensures (forall i :: 0 <= i < |readings| ==> readings[i] == start) ==> r == Reap(c, start)
  {
    var items := c.items;
    var pending := c.items.Keys;
    var i := 0;
    while pending != {}
      invariant pending <= items.Keys <= c.items.Keys
      invariant i + |pending| == |c.items|
      invariant forall k :: k in items ==> items[k] == c.items[k]
      invariant forall k :: k in items && k !in pending ==> !Expired(c.items[k], start, c.interval)
      invariant forall k :: k in c.items && k !in items ==>
                  Expired(c.items[k], LastReading(start, readings), c.interval)
      decreases pending
    {
      var key :| key in pending;
      var now := readings[i];
      assert start <= now <= LastReading(start, readings);
      if Expired(items[key], now, c.interval) {
        items := items - {key};
      }
      pending := pending - {key};
      i := i + 1;
    }
    r := Cache(items, c.interval);
    if forall i :: 0 <= i < |readings| ==> readings[i] == start {
      assert LastReading(start, readings) == start;
      assert r.items == Reap(c, start).items;
    }
  }

  /** A second pass at the same instant removes nothing more. */
  lemma ReapIdempotent(c: Cache, now: int)
    ensures Reap(Reap(c, now), now) == Reap(c, now)
  {
    assert Reap(Reap(c, now), now).items == Reap(c, now).items;
  }

  /** A later pass subsumes an earlier one: what the pass at `t1` removes,
      the pass at `t2 >= t1` would have removed too. */
  lemma ReapAbsorbsEarlier(c: Cache, t1: int, t2: int)
    requires t1 <= t2
    ensures Reap(Reap(c, t1), t2) == Reap(c, t2)
  {
    assert Reap(Reap(c, t1), t2).items == Reap(c, t2).items;
  }

  /** An entry added at `t0` survives a pass at `t` exactly when its age
      `t - t0` has not passed the interval; surviving, it keeps its value. */
  lemma AddedEntryLifetime(c: Cache, key: string, val: Bytes, t0: int, t: int)
    ensures Get(Reap(Add(c, key, val, t0), t), key).found <==> t - t0 <= c.interval
    ensures t - t0 <= c.interval ==> Get(Reap(Add(c, key, val, t0), t), key) == Lookup(val, true)
  {
  }

  /** The last `Add` wins: a re-`Add` leaves no trace of the earlier value or
      of its timestamp. */
  lemma AddOverwrites(c: Cache, key: string, v1: Bytes, t1: int, v2: Bytes, t2: int)
    ensures Add(Add(c, key, v1, t1), key, v2, t2) == Add(c, key, v2, t2)
  {
  }

  /** `Add`s to different keys do not interfere. */
  lemma AddsCommute(c: Cache, k1: string, v1: Bytes, t1: int, k2: string, v2: Bytes, t2: int)
    requires k1 != k2
    ensures Add(Add(c, k1, v1, t1), k2, v2, t2) == Add(Add(c, k2, v2, t2), k1, v1, t1)
  {
    assert Add(Add(c, k1, v1, t1), k2, v2, t2).items == Add(Add(c, k2, v2, t2), k1, v1, t1).items;
  }

  /** A cache reaping every 100 ns: a value added at time 0 reads back at 50,
      survives the tick at 100 (its age equals the interval, which is not
      older), and is gone after the tick at 200. */
  lemma ExampleLifetime()
    ensures
      var c := Add(NewCache(100), "a", [1, 2, 3], 0);
      && Get(c, "a") == Lookup([1, 2, 3], true)
      && Get(Reap(c, 100), "a") == Lookup([1, 2, 3], true)
      && Get(Reap(Reap(c, 100), 200), "a") == Lookup([], false)
  {
  }

  /** The operations of the cache, each one atomic under the mutex. */
  datatype Op = AddOp(key: string, val: Bytes, at: int) | GetOp(key: string) | ReapOp(at: int)

  /** The state change of one operation; `Get` changes nothing. */
  function Apply(c: Cache, op: Op): (r: Cache)
    ensures r.interval == c.interval
  {
    match op
    case AddOp(key, val, at) => Add(c, key, val, at)
    case GetOp(_) => c
    case ReapOp(at) => Reap(c, at)
  }

  /** The cache after a serialised history of operations, oldest first. */
  function Replay(c: Cache, ops: seq<Op>): (r: Cache)
    ensures r.interval == c.interval
    decreases |ops|
  {
    if |ops| == 0 then c else Apply(Replay(c, ops[..|ops| - 1]), ops[|ops| - 1])
  }

  predicate AddsKey(op: Op, key: string) {
    op.AddOp? && op.key == key
  }

  /** The value of the most recent `Add` of `key` in a history, if any. */
  function LatestAdd(ops: seq<Op>, key: string): Option<Bytes>
    decreases |ops|
  {
    if |ops| == 0 then None
    else if AddsKey(ops[|ops| - 1], key) then Some(ops[|ops| - 1].val)
    else LatestAdd(ops[..|ops| - 1], key)
  }

  /** In a history with no reap pass, `Get` sees the last value added, or the
      initial contents when the key was never added; `Get`s in between
      change nothing. */
  lemma {:induction false} LastAddWins(c: Cache, ops: seq<Op>, key: string)
    requires forall i :: 0 <= i < |ops| ==> !ops[i].ReapOp?
    ensures Get(Replay(c, ops), key) ==
              match LatestAdd(ops, key)
              case Some(v) => Lookup(v, true)
              case None => Get(c, key)
    decreases |ops|
  {
    if |ops| > 0 {
      LastAddWins(c, ops[..|ops| - 1], key);
    }
  }

  /** An entry stays, with its value and timestamp, through any history that
      does not re-add its key and whose passes all run while it is not yet
      older than the interval. */
  lemma {:induction false} PresentUntilExpiry(c: Cache, key: string, val: Bytes, t0: int, ops: seq<Op>)
    requires forall i :: 0 <= i < |ops| ==> !AddsKey(ops[i], key)
    requires forall i :: 0 <= i < |ops| && ops[i].ReapOp? ==> ops[i].at - t0 <= c.interval
    ensures key in Replay(Add(c, key, val, t0), ops).items
    ensures Replay(Add(c, key, val, t0), ops).items[key] == Entry(t0, val)
    decreases |ops|
  {
    if |ops| > 0 {
      PresentUntilExpiry(c, key, val, t0, ops[..|ops| - 1]);
    }
  }

  /** Once gone, a key stays gone until it is added again: no pass or lookup
      brings an entry back. */
  lemma {:induction false} NoResurrection(c: Cache, key: string, ops: seq<Op>)
    requires key !in c.items
    requires forall i :: 0 <= i < |ops| ==> !AddsKey(ops[i], key)
    ensures !Get(Replay(c, ops), key).found
    decreases |ops|
  {
    if |ops| > 0 {
      NoResurrection(c, key, ops[..|ops| - 1]);
    }
  }
}
