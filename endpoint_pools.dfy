/**
 * The reference-counted pools `S7TCPAsyncConnectionPool` (keyed by its
 * value-compared `Key`) and `S7TCPEndpointPool` (keyed by `EndpointKey`,
 * which compares by reference). Both keep an endpoint map and a counter
 * map with identical acquire/release logic, modelled once as
 * `RefCountPool`. The pooled connection or endpoint is opaque apart from
 * its `close`.
 */
module EndpointPools {
  import opened Wrappers
  import opened JavaHash
  import opened Connector
  import opened Scheduling

  /** A `SiemensPLCS` constant, as its ordinal. */
  datatype PlcType = PlcType(ordinal: nat)

  /** `S7TCPAsyncConnectionPool.Key`: five final fields. */
  datatype PoolKey = PoolKey(host: string, plcType: PlcType, rack: Int32, slot: Int32, port: Int32)

  /** `Key.equals`: identity short-cut, class check, then the five fields. */
  function KeyEquals(selfRef: nat, self: PoolKey, o: JavaObject<PoolKey>): bool
  {
    if !o.Null? && o.ref == selfRef then true
    else if !o.Instance? then false
    else
      && self.rack == o.value.rack
      && self.slot == o.value.slot
      && self.port == o.value.port
      && self.host == o.value.host
      && self.plcType == o.value.plcType
  }

  /** `Key.hashCode` = `Objects.hash(host, plcType, rack, slot, port)`; the enumeration constant's hash is supplied. */
  function KeyHashCode(k: PoolKey, plcHash: PlcType -> Int32): Int32
  {
    ObjectsHash([StringHash(k.host), plcHash(k.plcType), k.rack, k.slot, k.port])
  }

  /** `Key.equals` holds exactly when `o` is a Key with the same five fields, so the pool's map is keyed by value. */
  lemma KeyEqualsIsFieldEquality(selfRef: nat, self: PoolKey, o: JavaObject<PoolKey>)
    requires Coherent(selfRef, self, o)
    ensures KeyEquals(selfRef, self, o) <==> (o.Instance? && o.value == self)
  {
  }

  /** Equal keys hash equal, as `HashMap` requires. */
  lemma EqualPoolKeysHashEqual(selfRef: nat, self: PoolKey, o: JavaObject<PoolKey>, plcHash: PlcType -> Int32)
    requires Coherent(selfRef, self, o) && o.Instance?
    requires KeyEquals(selfRef, self, o)
    ensures KeyHashCode(self, plcHash) == KeyHashCode(o.value, plcHash)
  {
    KeyEqualsIsFieldEquality(selfRef, self, o);
  }

  /** `EndpointKey`: a field holder with no `equals`/`hashCode`, so maps compare it by reference. */
  class EndpointKey {
    const host: string
    const plcType: PlcType
    const rack: Int32
    const slot: Int32
    const port: Int32
    const period: Duration

    /** The five-argument constructor: the poll period defaults to 500 ms. */
    constructor(host: string, plcType: PlcType, rack: Int32, slot: Int32, port: Int32)
      ensures this.host == host && this.plcType == plcType && this.rack == rack && this.slot == slot && this.port == port
      ensures fresh(period) && period.millis == 500
    {
      this.host := host;
      this.plcType := plcType;
      this.rack := rack;
      this.slot := slot;
      this.port := port;
      period := new Duration(500);
    }

    /** The seven-argument constructor: the period is the given one and the timeout is not kept. */
    constructor WithTimings(host: string, plcType: PlcType, rack: Int32, slot: Int32, port: Int32, timeout: Duration, period: Duration)
      ensures this.host == host && this.plcType == plcType && this.rack == rack && this.slot == slot && this.port == port
      ensures this.period == period
    {
      this.host := host;
      this.plcType := plcType;
      this.rack := rack;
      this.slot := slot;
      this.port := port;
      this.period := period;
    }
  }

  /** A pooled connection or endpoint, built for its key; only its `close` is observed. */
  class PooledEndpoint<K> {
    const key: K
    var closeCalls: nat

    constructor(key: K)
      ensures this.key == key && closeCalls == 0
    {
      this.key := key;
      closeCalls := 0;
    }

    /** `close` (an IOException from it is only logged by the pool). */
    method Close()
      modifies this
      ensures closeCalls == old(closeCalls) + 1
    {
      closeCalls := closeCalls + 1;
    }
  }

  /** The pool: the endpoint map and the counter map (`AtomicInteger` values). */
  class RefCountPool<K(==)> {
    var endpoints: map<K, PooledEndpoint<K>>
    var acquires: map<K, Int32>

    /** Each pooled endpoint was built for its own key, so no two keys share one. */
    ghost predicate Valid()
      reads this, endpoints.Values
    {
      forall k :: k in endpoints ==> endpoints[k].key == k
    }

    /** Every pooled key has a counter, at least 1, and there are no stray counters. */
    ghost predicate Counted()
      reads this
    {
      && endpoints.Keys == acquires.Keys
      && (forall k :: k in acquires ==> acquires[k] >= 1)
    }

    constructor()
      ensures Valid() && Counted() && endpoints == map[] && acquires == map[]
    {
      endpoints := map[];
      acquires := map[];
    }

    /**
     * `acquireEndpoint` as written. A pooled key returns its endpoint and
     * increments its counter, which fails with a NullPointerException when
     * the counter is missing. An absent key gets a new endpoint, stored in
     * `endpoints` only.
     */
    method Acquire(key: K) returns (r: Result<PooledEndpoint<K>, Thrown>)
      requires Valid()
      modifies this
      ensures Valid()
      ensures key in old(endpoints) ==>
        && endpoints == old(endpoints)
        && (key in old(acquires) ==> r == Ok(old(endpoints[key])) && acquires == old(acquires)[key := Wrap32(old(acquires[key]) as int + 1)])
        && (key !in old(acquires) ==> r == Err(NullPointer) && acquires == old(acquires))
      ensures key !in old(endpoints) ==>
        && r.Ok? && fresh(r.value) && r.value.key == key && r.value.closeCalls == 0
        && endpoints == old(endpoints)[key := r.value]
        && acquires == old(acquires)
    {
      if key in endpoints {
        var endpoint := endpoints[key];
        if key !in acquires {
          return Err(NullPointer);
        }
        acquires := acquires[key := Wrap32(acquires[key] as int + 1)];
        return Ok(endpoint);
      } else {
        var endpoint := new PooledEndpoint(key);
        endpoints := endpoints[key := endpoint];
        return Ok(endpoint);
      }
    }

    /** `acquireEndpoint` corrected: a new endpoint starts with its counter at 1. */
    method AcquireCorrected(key: K) returns (r: Result<PooledEndpoint<K>, Thrown>)
      requires Valid()
      modifies this
      ensures Valid()
      ensures old(Counted()) && (key in old(acquires) ==> old(acquires[key]) < 0x7fff_ffff) ==> Counted()
      ensures key in old(endpoints) ==>
        && endpoints == old(endpoints)
        && (key in old(acquires) ==> r == Ok(old(endpoints[key])) && acquires == old(acquires)[key := Wrap32(old(acquires[key]) as int + 1)])
        && (key !in old(acquires) ==> r == Err(NullPointer) && acquires == old(acquires))
      ensures key !in old(endpoints) ==>
        && r.Ok? && fresh(r.value) && r.value.key == key && r.value.closeCalls == 0
        && endpoints == old(endpoints)[key := r.value]
        && acquires == old(acquires)[key := 1]
    {
      if key in endpoints {
        var endpoint := endpoints[key];
        if key !in acquires {
          return Err(NullPointer);
        }
        acquires := acquires[key := Wrap32(acquires[key] as int + 1)];
        return Ok(endpoint);
      } else {
        var endpoint := new PooledEndpoint(key);
        endpoints := endpoints[key := endpoint];
        acquires := acquires[key := 1];
        return Ok(endpoint);
      }
    }

    /**
     * `releaseEndpoint`: an unknown key changes nothing. Otherwise the
     * counter is decremented (a NullPointerException when it is missing);
     * reaching 0 closes the endpoint once and removes the key from both
     * maps, anything else leaves the endpoint alone.
     */
    method Release(key: K) returns (thrown: Option<Thrown>)
      requires Valid()
      modifies this, endpoints.Values
      ensures Valid()
      ensures old(Counted()) ==> Counted()
      ensures key !in old(endpoints) ==>
        thrown.None? && endpoints == old(endpoints) && acquires == old(acquires)
      ensures key in old(endpoints) && key !in old(acquires) ==>
        && thrown == Some(NullPointer) && endpoints == old(endpoints) && acquires == old(acquires)
        && old(endpoints[key]).closeCalls == old(endpoints[key].closeCalls)
      ensures key in old(endpoints) && key in old(acquires) ==>
        var n := Wrap32(old(acquires[key]) as int - 1);
        && thrown.None?
        && (n == 0 ==>
              && endpoints == old(endpoints) - {key} && acquires == old(acquires) - {key}
              && old(endpoints[key]).closeCalls == old(endpoints[key].closeCalls) + 1)
        && (n != 0 ==>
              && endpoints == old(endpoints) && acquires == old(acquires)[key := n]
              && old(endpoints[key]).closeCalls == old(endpoints[key].closeCalls))
      ensures forall k :: k in old(endpoints) && k != key ==> old(endpoints[k]).closeCalls == old(endpoints[k].closeCalls)
    {
      thrown := None;
      if key in endpoints {
        if key !in acquires {
          return Some(NullPointer);
        }
        var n := Wrap32(acquires[key] as int - 1);
        acquires := acquires[key := n];
        if n == 0 {
          endpoints[key].Close();
          endpoints := endpoints - {key};
          acquires := acquires - {key};
        }
      }
    }
  }
}
