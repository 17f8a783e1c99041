/** `WWPassConnectionMT`: a pool of connections that share one configuration,
    each guarded by its own lock. The pool is modelled by its lock flags
    (`true` = held), with acquire and release as atomic sequential steps. */
module Pool {
  import opened Results
  import opened Params
  import opened Connection
  import Api

  /** The shared configuration and the lock flag of every pooled connection. */
  datatype Pool = Pool(conn: Connection, locks: seq<bool>)

  /** `WWPassConnectionMT(initialConnections, ...)`: `range` of a negative count
      is empty, so the pool starts with `max(initialConnections, 0)` free connections. */
  function NewPool(conn: Connection, initialConnections: int): (p: Pool)
    ensures p.conn == conn
    ensures |p.locks| == if initialConnections < 0 then 0 else initialConnections
    ensures forall i :: 0 <= i < |p.locks| ==> !p.locks[i]
  {
    if initialConnections <= 0 then Pool(conn, [])
    else
      var p := NewPool(conn, initialConnections - 1);
      AddConnection(p, false).0
  }

  /** `addConnection(acquired)`: appends one connection, locked or free, and
      returns its index. */
  function AddConnection(p: Pool, acquired: bool): (r: (Pool, nat))
    ensures r.0.conn == p.conn
    ensures r.1 == |p.locks| && |r.0.locks| == |p.locks| + 1
    ensures r.0.locks[r.1] == acquired
    ensures forall j :: 0 <= j < |p.locks| ==> r.0.locks[j] == p.locks[j]
  {
    (Pool(p.conn, p.locks + [acquired]), |p.locks|)
  }

  /** The index of the first free connection at or after `from`, or `|locks|`. */
  function FirstFree(locks: seq<bool>, from: nat): (r: nat)
    requires from <= |locks|
    decreases |locks| - from
    ensures from <= r <= |locks|
    ensures forall j :: from <= j < r ==> locks[j]
    ensures r < |locks| ==> !locks[r]
  {
    if from == |locks| then from
    else if !locks[from] then from
    else FirstFree(locks, from + 1)
  }

  /** `getConnection()`: try-locks the connections in order and takes the first
      free one; when all are held, appends a new connection already locked. */
  function Acquire(p: Pool): (r: (Pool, nat))
    ensures r.0.conn == p.conn
    ensures r.1 <= |p.locks|
    ensures r.1 < |p.locks| ==> !p.locks[r.1]
    ensures forall j :: 0 <= j < r.1 && j < |p.locks| ==> p.locks[j]
    ensures |r.0.locks| == if r.1 < |p.locks| then |p.locks| else |p.locks| + 1
    ensures r.1 < |r.0.locks| && r.0.locks[r.1]
    ensures forall j :: 0 <= j < |p.locks| && j != r.1 ==> r.0.locks[j] == p.locks[j]
  {
    var i := FirstFree(p.locks, 0);
    if i < |p.locks| then (Pool(p.conn, p.locks[i := true]), i)
    else AddConnection(p, true)
  }

  /** `getConnection()` as the source writes it: a scan with a non-blocking
      try-lock on each connection, then growth. */
  method GetConnection(p: Pool) returns (q: Pool, idx: nat)
    ensures idx <= |p.locks|
    ensures idx < |p.locks| ==> !p.locks[idx]
    ensures forall j :: 0 <= j < idx && j < |p.locks| ==> p.locks[j]
    ensures |q.locks| == if idx < |p.locks| then |p.locks| else |p.locks| + 1
    ensures idx < |q.locks| && q.locks[idx]
    ensures forall j :: 0 <= j < |p.locks| && j != idx ==> q.locks[j] == p.locks[j]
    ensures (q, idx) == Acquire(p)
  {
    var i := 0;
    while i < |p.locks|
      invariant 0 <= i <= |p.locks|
      invariant forall j :: 0 <= j < i ==> p.locks[j]
    {
      if !p.locks[i] {
        assert FirstFree(p.locks, 0) == i;
        return Pool(p.conn, p.locks[i := true]), i;
      }
      i := i + 1;
    }
    assert FirstFree(p.locks, 0) == |p.locks|;
    q, idx := Pool(p.conn, p.locks + [true]), |p.locks|;
  }

  /** `connectionLock.release()`: the lock must be held; only its flag clears. */
  function Release(p: Pool, idx: nat): (q: Pool)
    requires idx < |p.locks| && p.locks[idx]
    ensures q.conn == p.conn
    ensures |q.locks| == |p.locks|
    ensures !q.locks[idx]
    ensures forall j :: 0 <= j < |p.locks| && j != idx ==> q.locks[j] == p.locks[j]
  {
    Pool(p.conn, p.locks[idx := false])
  }

  /** The pooled `makeRequest`: acquire, delegate, and release in `finally`.
      The request's result (reply or error) is the single connection's, every
      connection the pool had keeps its lock state, and a connection added on
      the way is left free. */
  function PooledRequest(p: Pool, call: Call, net: nat -> Outcome): (r: (Pool, Exchange))
    requires DistinctKeys(call.args)
    ensures r.1 == Request(p.conn, call, net)
    ensures r.0.conn == p.conn
    ensures |p.locks| <= |r.0.locks| <= |p.locks| + 1
    ensures |r.0.locks| == |p.locks| + 1 <==> forall j :: 0 <= j < |p.locks| ==> p.locks[j]
    ensures forall j :: 0 <= j < |p.locks| ==> r.0.locks[j] == p.locks[j]
    ensures forall j :: |p.locks| <= j < |r.0.locks| ==> !r.0.locks[j]
  {
    var (held, idx) := Acquire(p);
    var ex := Request(held.conn, call, net);
    (Release(held, idx), ex)
  }

  /** A typed wrapper called on the pool: it answers as on a single connection
      and leaves every existing connection's lock as it found it. */
  function PooledPerform(p: Pool, op: Api.Operation, net: nat -> Outcome): (r: (Pool, Result<Api.Reply>))
    ensures r.1 == Api.Perform(p.conn, op, net)
    ensures |p.locks| <= |r.0.locks| <= |p.locks| + 1
    ensures forall j :: 0 <= j < |r.0.locks| ==> r.0.locks[j] == (j < |p.locks| && p.locks[j])
  {
    Api.CallOfWellFormed(op);
    var (q, ex) := PooledRequest(p, Api.CallOf(op), net);
    (q, Api.Finish(op, ex.tally.result))
  }

  /** Two acquisitions without a release in between never hand out the same
      connection: at most one request runs on a connection at a time. */
  lemma AcquireExcludesHolder(p: Pool)
    ensures Acquire(Acquire(p).0).1 != Acquire(p).1
  {
  }

  /** A pool of one free connection: the first caller gets it, the second makes
      the pool grow to two and gets the new one. */
  lemma SecondCallerGrowsPool(conn: Connection)
    ensures var (p1, i1) := Acquire(NewPool(conn, 1));
      var (p2, i2) := Acquire(p1);
      i1 == 0 && i2 == 1 && p2.locks == [true, true]
  {
  }

  /** A released connection can be acquired again at once: acquiring after an
      acquire-release round gives the same connection. */
  lemma ReleaseMakesReacquirable(p: Pool)
    ensures var (held, i) := Acquire(p);
      Acquire(Release(held, i)).1 == i
  {
  }

  /** A pool operation: `getConnection()`, or the release of connection `idx`. */
  datatype Event = Get | Put(idx: nat)

  /** One operation on the pool; releasing a connection that is not held makes
      `Lock.release` raise and leaves the pool as it was. */
  function Step(p: Pool, e: Event): (q: Pool)
    ensures |p.locks| <= |q.locks| <= |p.locks| + 1
    ensures q.conn == p.conn
  {
    match e
    case Get => Acquire(p).0
    case Put(i) => if i < |p.locks| && p.locks[i] then Release(p, i) else p
  }

  /** The pool after a sequence of operations. */
  function Replay(p: Pool, events: seq<Event>): Pool
    decreases |events|
  {
    if events == [] then p else Replay(Step(p, events[0]), events[1..])
  }

  /** Whatever callers do, the pool never shrinks, keeps its configuration, and
      grows by at most one connection per operation. */
  lemma {:induction false} PoolOnlyGrows(p: Pool, events: seq<Event>)
    ensures |p.locks| <= |Replay(p, events).locks| <= |p.locks| + |events|
    ensures Replay(p, events).conn == p.conn
    decreases |events|
  {
    if events != [] {
      PoolOnlyGrows(Step(p, events[0]), events[1..]);
    }
  }
}
