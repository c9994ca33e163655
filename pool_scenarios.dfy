/**
 * Acquire/release sequences on the pools: the code as written, and the
 * corrected acquire that starts a new key's counter at 1.
 */
module PoolScenarios {
  import opened Wrappers
  import opened JavaHash
  import opened Connector
  import opened EndpointPools

  const S7_300: PlcType := PlcType(0)

  /** As written: the first acquire creates the endpoint, the second finds no counter and fails, and so does a release. */
  method AsWrittenSecondAcquireFails() returns (first: Result<PooledEndpoint<PoolKey>, Thrown>,
                                                 second: Result<PooledEndpoint<PoolKey>, Thrown>,
                                                 released: Option<Thrown>, closes: nat)
    ensures first.Ok? && second == Err(NullPointer)
    ensures released == Some(NullPointer)
    ensures closes == 0
  {
    var pool := new RefCountPool<PoolKey>();
    var key := PoolKey("10.0.0.1", S7_300, 0, 2, 102);
    first := pool.Acquire(key);
    second := pool.Acquire(key);
    released := pool.Release(key);
    closes := first.value.closeCalls;
  }

  /** Corrected: two acquires share one endpoint; it is closed by the second release only, and exactly once. */
  method SharedEndpointClosedOnce() returns (same: bool, closesAfterFirst: nat, closesAfterSecond: nat, empty: bool)
    ensures same
    ensures closesAfterFirst == 0 && closesAfterSecond == 1
    ensures empty
  {
    var pool := new RefCountPool<PoolKey>();
    var key := PoolKey("10.0.0.1", S7_300, 0, 2, 102);
    var first := pool.AcquireCorrected(key);
    assert pool.acquires == map[key := 1];
    var second := pool.AcquireCorrected(key);
    assert pool.acquires == map[key := 2];
    same := first == second;
    var thrown := pool.Release(key);
    assert pool.acquires == map[key := 1];
    closesAfterFirst := first.value.closeCalls;
    thrown := pool.Release(key);
    closesAfterSecond := first.value.closeCalls;
    empty := pool.endpoints == map[] && pool.acquires == map[];
  }

  /** Two `EndpointKey`s with the same fields are different map keys, so each gets its own endpoint. */
  method EqualFieldKeysAreDistinct() returns (distinct: bool, pooled: nat)
    ensures distinct
    ensures pooled == 2
  {
    var pool := new RefCountPool<EndpointKey>();
    var a := new EndpointKey("10.0.0.1", S7_300, 0, 2, 102);
    var b := new EndpointKey("10.0.0.1", S7_300, 0, 2, 102);
    var ea := pool.AcquireCorrected(a);
    var eb := pool.AcquireCorrected(b);
    distinct := ea.value != eb.value;
    pooled := |pool.endpoints|;
  }

  /** Releasing a key that is not pooled changes nothing and throws nothing. */
  method ReleaseUnknownIsNoOp() returns (thrown: Option<Thrown>, closes: nat, pooled: nat)
    ensures thrown.None? && closes == 0 && pooled == 1
  {
    var pool := new RefCountPool<PoolKey>();
    var key := PoolKey("10.0.0.1", S7_300, 0, 2, 102);
    var e := pool.AcquireCorrected(key);
    thrown := pool.Release(PoolKey("10.0.0.2", S7_300, 0, 2, 102));
    closes := e.value.closeCalls;
    pooled := |pool.endpoints|;
  }
}
