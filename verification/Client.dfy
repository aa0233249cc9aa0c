/** `Connector` and `Client` as objects on the base loop: connection attempts, the
    connection map, and the hand-offs to the I/O loops. */
module Clients {
  import opened Kernel
  import opened ThreadPool

  /** What `socket` and `connect` came to: an attempt under way (success, EINPROGRESS or
      EINTR), or a socket closed again at once (every other error). */
  datatype Attempt = UnderWay(fd: Fd) | Closed

  /** The sockets that stay open. */
  function Kept(results: seq<Attempt>): set<Fd> {
    set i | 0 <= i < |results| && results[i].UnderWay? :: results[i].fd
  }

  lemma KeptNext(results: seq<Attempt>, i: nat)
    requires i < |results|
    ensures Kept(results[..i + 1]) == Kept(results[..i]) + (if results[i].UnderWay? then {results[i].fd} else {})
  {
  }

  lemma {:induction false} KeptIsNoMore(results: seq<Attempt>, n: nat)
    requires n <= |results|
    ensures |Kept(results[..n])| <= n
  {
    if n == 0 {
      assert Kept(results[..0]) == {};
    } else {
      KeptIsNoMore(results, n - 1);
      KeptNext(results, n - 1);
    }
  }

  class Connector {
    var numsocks: nat
    var attempts: set<Fd>

    constructor (numsocks: nat)
      ensures this.numsocks == numsocks && attempts == {}
    {
      this.numsocks, attempts := numsocks, {};
    }

    /** `connect(n)`: `n` attempts from now on, or with 0 as many as last time. A
        reconnect with 1 therefore overwrites the configured number. */
    method Connect(n: nat, results: seq<Attempt>)
      requires |results| == if n > 0 then n else numsocks
      modifies this
      ensures numsocks == |results|
      ensures attempts == old(attempts) + Kept(results)
      ensures |attempts| <= |old(attempts)| + |results|
    {
      if n > 0 {
        numsocks := n;
      }
      assert results[..0] == [];
      for i := 0 to numsocks
        invariant numsocks == |results|
        invariant attempts == old(attempts) + Kept(results[..i])
      {
        KeptNext(results, i);
        match results[i] {
          case UnderWay(fd) => attempts := attempts + {fd};
          case Closed =>
        }
      }
      assert results[..|results|] == results;
      KeptIsNoMore(results, |results|);
    }
  }

  class Client {
    const connector: Connector
    const pool: EventLoopThreadPool<nat>
    var nextConnId: nat
    var connections: map<Fd, ConnId>
    var queued: seq<(nat, Functor)>  // (I/O loop, functor), in order

    constructor (numsocks: nat, baseLoop: nat)
      ensures connector.numsocks == numsocks && connector.attempts == {} && fresh(connector)
      ensures pool.Valid() && !pool.started && pool.baseLoop == baseLoop && fresh(pool)
      ensures connections == map[] && nextConnId == 0 && queued == []
    {
      connector := new Connector(numsocks);
      pool := new EventLoopThreadPool(baseLoop);
      nextConnId, connections, queued := 0, map[], [];
    }

    /** Attempts under way and live map entries. */
    function Load(): nat
      reads this, connector
    {
      |connector.attempts| + |connections|
    }

    /** `start`: the pool's threads, then the configured number of attempts. */
    method Start(threads: seq<nat>, results: seq<Attempt>)
      requires pool.Valid() && !pool.started && |threads| == pool.numThreads
      requires connections == map[] && connector.attempts == {} && |results| == connector.numsocks
      modifies pool, connector
      ensures pool.Valid() && pool.started && pool.loops == threads
      ensures connector.attempts == Kept(results) && Load() <= old(connector.numsocks)
    {
      pool.Start(threads);
      connector.Connect(0, results);
    }

    /** `newConnection` for a socket that finished connecting. The attempt becomes a map
        entry, so the load does not grow, and the next loop in turn establishes it. */
    method NewConnection(sockfd: Fd)
      requires pool.Valid() && pool.started && pool.loops != [] && sockfd in connector.attempts
      modifies this, connector, pool`next, pool`calls
      ensures pool.Valid() && connections == old(connections)[sockfd := old(nextConnId)]
      ensures nextConnId == old(nextConnId) + 1 && connector.attempts == old(connector.attempts) - {sockfd}
      ensures queued == old(queued) + [(pool.loops[old(pool.calls) % |pool.loops|], Establish(old(nextConnId)))]
      ensures Load() == old(Load()) - (if sockfd in old(connections) then 1 else 0)
    {
      var ioLoop := pool.GetNextLoop();
      var conn := nextConnId;
      nextConnId := nextConnId + 1;
      connections := connections[sockfd := conn];
      connector.attempts := connector.attempts - {sockfd};
      queued := queued + [(ioLoop, Establish(conn))];
      assert old(connector.attempts) == connector.attempts + {sockfd};
    }

    /** `removeConnectionInLoop`: one entry out, its destruction queued, one new attempt. */
    method RemoveConnectionInLoop(conn: ConnId, fd: Fd, ioLoop: nat, retry: Attempt)
      requires fd in connections
      modifies this, connector
      ensures connections == old(connections) - {fd} && nextConnId == old(nextConnId)
      ensures queued == old(queued) + [(ioLoop, Destroy(conn))]
      ensures connector.attempts == old(connector.attempts) + (if retry.UnderWay? then {retry.fd} else {})
      ensures Load() == old(Load()) - (if retry.UnderWay? && retry.fd !in old(connector.attempts) then 0 else 1)
    {
      assert old(connections).Keys == (connections - {fd}).Keys + {fd};
      assert |old(connections)| == |old(connections).Keys| && |connections - {fd}| == |(connections - {fd}).Keys|;
      connections := connections - {fd};
      queued := queued + [(ioLoop, Destroy(conn))];
      connector.Connect(1, [retry]);
      assert Kept([retry]) == if retry.UnderWay? then {retry.fd} else {} by {
        KeptNext([retry], 0);
        assert [retry][..1] == [retry] && [retry][..0] == [];
      }
    }
  }
}
