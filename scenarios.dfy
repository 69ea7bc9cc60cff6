/**
 * Sequences of session operations, written as clients of the operations' contracts: what a
 * caller of New, Login, Transfer and Close can conclude about the state in between.
 */
module Scenarios {
  import opened Base
  import opened Protocol
  import opened PlayerCounts
  import opened Session

  /**
   * A client joins server `a`, logs in, is transferred to `b` and leaves. At the end every
   * count is back where it started and the session is gone from the store.
   */
  method JoinTransferLeave(store: Store, counters: Counters, identity: IdentityData,
                           clientData: ClientData, a: Server, b: Server, connA: Conn, connB: Conn)
    requires a in counters.counts && b in counters.counts
    modifies store, counters
    ensures counters.counts == old(counters.counts)
    ensures identity.identity !in store.ids
  {
    ghost var start := counters.counts;
    var s, err := Session.New(identity, clientData, store, counters, Some(a));
    assert err.None? && counters.counts == Inc(start, a);
    s.Login(Some(connA), true);
    TransferThenLeave(s, b, connB);
    LifetimeBalances(start, a, [b]);
  }

  /**
   * A logged-in session on `a` is transferred to `b` and then closed: `a` loses the player
   * on the transfer, `b` gains it, and loses it again on close.
   */
  method TransferThenLeave(s: Session, b: Server, connB: Conn)
    requires s.Valid() && !s.loggingIn && s.server.Some? && s.serverConn.Some?
    requires !s.transferring && !s.closed && b in s.counters.counts
    modifies s, s.store, s.counters
    ensures s.counters.counts == Dec(Swap(old(s.counters.counts), old(s.server).value, b), b)
    ensures s.uuid !in s.store.ids && s.closed && s.server == Some(b)
  {
    var terr := s.Transfer(b, Continue, Some(connB), true);
    assert terr.None? && s.server == Some(b);
    s.Close();
  }

  /**
   * A transfer whose dial fails leaves the session on its server with every count as it
   * was, but `transferring` stays set, so the next transfer is refused.
   */
  method FailedDialBlocksNextTransfer(s: Session, b: Server, c: Server, connC: Conn)
      returns (second: Option<Error>)
    requires s.Valid() && !s.loggingIn && s.server.Some? && s.serverConn.Some? && !s.transferring
    requires b in s.counters.counts && c in s.counters.counts
    modifies s, s.counters
    ensures s.server == old(s.server) && s.counters.counts == old(s.counters.counts)
    ensures s.transferring
    ensures second == Some(AlreadyTransferring)
    ensures s.clientLog == old(s.clientLog)
  {
    var first := s.Transfer(b, Continue, None, false);
    assert first.None?;
    var flag := s.Transferring();
    assert flag;
    second := s.Transfer(c, Continue, Some(connC), true);
  }

  /**
   * A session whose login dial failed has no backend connection, yet a transfer whose own
   * dial fails is still accepted: the handler is told, the session stays on its first
   * server with the counts as after the join, and `transferring` stays set.
   */
  method TransferAfterFailedLogin(store: Store, counters: Counters, identity: IdentityData,
                                  clientData: ClientData, a: Server, b: Server)
      returns (s: Session, err: Option<Error>)
    requires a in counters.counts && b in counters.counts
    modifies store, counters
    ensures s.serverConn.None? && s.tempServerConn.None?
    ensures err.None? && s.transferring && s.server == Some(a)
    ensures counters.counts == Inc(old(counters.counts), a)
    ensures s.handlerCalls == [HandleTransfer(NopHandler, b)] && s.clientLog == []
  {
    var joinErr;
    s, joinErr := Session.New(identity, clientData, store, counters, Some(a));
    s.Login(None, false);
    err := s.Transfer(b, Continue, None, false);
  }

  /** Closing twice has the effect of closing once. */
  method CloseTwice(s: Session)
    requires s.Valid()
    modifies s, s.store, s.counters
    ensures old(s.closed) ==> unchanged(s, s.store, s.counters)
    ensures !old(s.closed) ==> s.ClosedFrom()
  {
    s.Close();
    s.Close();
  }
}
