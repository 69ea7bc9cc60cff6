/**
 * Player-count bookkeeping of the backend servers: every known server has a live count,
 * which sessions change by one at a time (IncrementPlayerCount / DecrementPlayerCount).
 */
module PlayerCounts {
  import opened Protocol

  /** The live player count of each backend server the proxy knows. */
  type Counts = map<Server, int>

  /** The sum of all counts. */
  ghost function Total(c: Counts): int
    decreases |c|
  {
    if c == map[] then 0 else var s :| s in c; c[s] + Total(c - {s})
  }

  /** Total can be computed by taking out any server first. */
  lemma TotalRemove(c: Counts, k: Server)
    requires k in c
    ensures Total(c) == c[k] + Total(c - {k})
    decreases |c|
  {
    var s :| s in c && Total(c) == c[s] + Total(c - {s});
    if s != k {
      TotalRemove(c - {s}, k);
      TotalRemove(c - {k}, s);
      assert c - {s} - {k} == c - {k} - {s};
    }
  }

  /** Changing one server's count changes the sum by exactly the difference. */
  lemma TotalUpdate(c: Counts, k: Server, v: int)
    requires k in c
    ensures Total(c[k := v]) == Total(c) - c[k] + v
  {
    TotalRemove(c, k);
    TotalRemove(c[k := v], k);
    assert c[k := v] - {k} == c - {k};
  }

  /** IncrementPlayerCount on server s. */
  function Inc(c: Counts, s: Server): (r: Counts)
    requires s in c
    ensures r.Keys == c.Keys && r[s] == c[s] + 1
    ensures forall t :: t in c && t != s ==> r[t] == c[t]
    ensures Total(r) == Total(c) + 1
  {
    TotalUpdate(c, s, c[s] + 1);
    c[s := c[s] + 1]
  }

  /** DecrementPlayerCount on server s; it undoes an increment of s. */
  function Dec(c: Counts, s: Server): (r: Counts)
    requires s in c
    ensures r.Keys == c.Keys && r[s] == c[s] - 1
    ensures forall t :: t in c && t != s ==> r[t] == c[t]
    ensures Total(r) == Total(c) - 1
    ensures Inc(r, s) == c
  {
    TotalUpdate(c, s, c[s] - 1);
    c[s := c[s] - 1]
  }

  /**
   * The count swap of a successful transfer: decrement the old server, then increment the
   * destination. The sum of all counts is preserved, a transfer to the same server leaves
   * every count as it was, and otherwise exactly one player moves from `from` to `to`.
   */
  function Swap(c: Counts, from: Server, to: Server): (r: Counts)
    requires from in c && to in c
    ensures r.Keys == c.Keys
    ensures Total(r) == Total(c)
    ensures from == to ==> r == c
    ensures from != to ==> r[from] == c[from] - 1 && r[to] == c[to] + 1
    ensures forall t :: t in c && t != from && t != to ==> r[t] == c[t]
  {
    Inc(Dec(c, from), to)
  }

  /** All servers of a transfer chain have counters. */
  predicate Known(c: Counts, servers: seq<Server>) {
    forall i :: 0 <= i < |servers| ==> servers[i] in c
  }

  /** The counts after successful transfers from `current` through each of `dests` in order. */
  function AfterTransfers(c: Counts, current: Server, dests: seq<Server>): (r: Counts)
    requires current in c && Known(c, dests)
    ensures r.Keys == c.Keys
    ensures Total(r) == Total(c)
    decreases |dests|
  {
    if dests == [] then c else AfterTransfers(Swap(c, current, dests[0]), dests[0], dests[1..])
  }

  /** The server a session ends on after those transfers. */
  function LastServer(current: Server, dests: seq<Server>): Server {
    if dests == [] then current else dests[|dests| - 1]
  }

  /** Transfers move a session's one increment along the chain to the last server. */
  lemma {:induction false} AfterTransfersMovesIncrement(c: Counts, current: Server, dests: seq<Server>)
    requires current in c && Known(c, dests)
    ensures AfterTransfers(Inc(c, current), current, dests) == Inc(c, LastServer(current, dests))
    decreases |dests|
  {
    if dests != [] {
      var next := dests[0];
      assert Dec(Inc(c, current), current) == c;
      assert Swap(Inc(c, current), current, next) == Inc(c, next);
      assert Known(c, dests[1..]);
      AfterTransfersMovesIncrement(c, next, dests[1..]);
      assert LastServer(next, dests[1..]) == LastServer(current, dests);
    }
  }

  /**
   * Balanced accounting over a session's life: the increment when it joins its first server,
   * one swap per successful transfer and the decrement on close of the server it ends on
   * leave every count exactly as it was before the session joined.
   */
  lemma LifetimeBalances(c: Counts, first: Server, dests: seq<Server>)
    requires first in c && Known(c, dests)
    ensures Dec(AfterTransfers(Inc(c, first), first, dests), LastServer(first, dests)) == c
  {
    AfterTransfersMovesIncrement(c, first, dests);
    var last := LastServer(first, dests);
    assert last in c;
    assert Dec(Inc(c, last), last) == c;
  }
}
