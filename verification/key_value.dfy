/** The Redis keyspace the OTP flows use, as a map from key to value and expiry
    time, with an explicit clock in seconds. */
module KeyValue {
  import opened Common

  /** What is stored: the JSON text `{hash, attempts}` of a pending code, or the
      marker `'1'` of a verified phone. Neither is ever the empty string. */
  datatype Value = OtpRecord(hash: string, attempts: int) | Marker

  /** A value and the absolute second at which it expires (`None`: no expiry). */
  datatype Entry = Entry(value: Value, expiry: Option<int>)

  /** The value of `key` at time `now` in a snapshot of the store: `None` for a
      missing or expired key. */
  function ValueAt(entries: map<string, Entry>, now: int, key: string): (r: Option<Value>)
    ensures r.Some? <==> key in entries && (entries[key].expiry.None? || now < entries[key].expiry.value)
    ensures r.Some? ==> r.value == entries[key].value
  {
    if key in entries && (entries[key].expiry.None? || now < entries[key].expiry.value) then Some(entries[key].value)
    else None
  }

  class Store {
    var entries: map<string, Entry>
    var now: int

    constructor(now: int)
      ensures entries == map[] && this.now == now
    {
      entries := map[];
      this.now := now;
    }

    /** The key holds a value that has not expired. */
    predicate Live(key: string)
      reads this
    {
      key in entries && (entries[key].expiry.None? || now < entries[key].expiry.value)
    }

    /** `GET key`: `null` (here `None`) for a missing or expired key. */
    function Get(key: string): (r: Option<Value>)
      reads this
      ensures r.Some? <==> Live(key)
      ensures r.Some? ==> r.value == entries[key].value
      ensures r == ValueAt(entries, now, key)
    {
      if Live(key) then Some(entries[key].value) else None
    }

    /** `TTL key`: -2 for a missing or expired key, -1 for a key without expiry,
        otherwise the seconds left, which are then positive. */
    function Ttl(key: string): (t: int)
      reads this
      ensures !Live(key) <==> t == -2
      ensures Live(key) && entries[key].expiry.None? <==> t == -1
      ensures t > 0 <==> Live(key) && entries[key].expiry.Some?
      ensures t > 0 ==> entries[key].expiry == Some(now + t)
    {
      if !Live(key) then -2
      else if entries[key].expiry.None? then -1
      else entries[key].expiry.value - now
    }

    /** `SET key value EX ttl`: overwrites any previous value and expiry. Redis
        refuses a non-positive `EX`. */
    method Set(key: string, value: Value, ttl: int)
      requires ttl > 0
      modifies this
      ensures entries == old(entries)[key := Entry(value, Some(now + ttl))]
      ensures now == old(now)
      ensures Get(key) == Some(value)
    {
      entries := entries[key := Entry(value, Some(now + ttl))];
    }

    /** `DEL key` */
    method Del(key: string)
      modifies this
      ensures entries == old(entries) - {key}
      ensures now == old(now)
      ensures Get(key) == None
    {
      entries := entries - {key};
    }

    /** Time passes; a value expires once the clock reaches its expiry. */
    method Tick(seconds: nat)
      modifies this
      ensures now == old(now) + seconds
      ensures entries == old(entries)
    {
      now := now + seconds;
    }
  }
}
