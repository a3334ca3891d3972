/** The per-client rate limiter (server/src/connect/ratelimit.go): a token bucket per key, and a cleanup
    that forgets keys not seen for a while. Times are reals, in seconds. */
module RateLimit {

  datatype Limits = Limits(rps: real, burst: nat)

  /** golang.org/x/time/rate over the reals: full when made, refilled at `rps` up to `burst`. */
  datatype Bucket = Bucket(tokens: real, last: real)

  function FullBucket(lim: Limits, now: real): Bucket {
    Bucket(lim.burst as real, now)
  }

  /** Tokens earned in a stretch of time. */
  function Earned(rps: real, wait: real): real {
    rps * wait
  }

  function Refilled(lim: Limits, b: Bucket, now: real): real {
    var t := b.tokens + Earned(lim.rps, now - b.last);
    if t < lim.burst as real then t else lim.burst as real
  }

  function Permits(lim: Limits, b: Bucket, now: real): bool {
    Refilled(lim, b, now) >= 1.0
  }

  function Spend(lim: Limits, b: Bucket, now: real): Bucket {
    var t := Refilled(lim, b, now);
    Bucket(if t >= 1.0 then t - 1.0 else t, now)
  }

  datatype Entry = Entry(bucket: Bucket, lastSeen: real)
  type Table = map<string, Entry>

  function BucketFor(lim: Limits, table: Table, key: string, now: real): Bucket {
    if key in table then table[key].bucket else FullBucket(lim, now)
  }

  function Allows(lim: Limits, table: Table, key: string, now: real): bool {
    Permits(lim, BucketFor(lim, table, key, now), now)
  }

  function AfterAllow(lim: Limits, table: Table, key: string, now: real): Table {
    table[key := Entry(Spend(lim, BucketFor(lim, table, key, now), now), now)]
  }

  function Purged(table: Table, now: real, maxIdle: real): Table {
    map key | key in table && !(now - table[key].lastSeen > maxIdle) :: table[key]
  }

  // ---- the code ----

  class LimiterEntry {
    var bucket: Bucket
    var lastSeen: real

    constructor (bucket: Bucket, lastSeen: real)
      ensures this.bucket == bucket && this.lastSeen == lastSeen
    {
      this.bucket, this.lastSeen := bucket, lastSeen;
    }
  }

  class IpRateLimiter {
    var limiters: map<string, LimiterEntry>
    const lim: Limits

    ghost predicate Valid()
      reads this
    {
      forall a, b | a in limiters && b in limiters && a != b :: limiters[a] != limiters[b]
    }

    ghost function View(): Table
      reads this, limiters.Values
    {
      map key | key in limiters :: Entry(limiters[key].bucket, limiters[key].lastSeen)
    }

    constructor (lim: Limits)
      ensures Valid() && View() == map[] && this.lim == lim
    {
      limiters := map[];
      this.lim := lim;
    }

    method Allow(key: string, now: real) returns (ok: bool)
      requires Valid()
      modifies this, limiters.Values
      ensures Valid()
      ensures ok == Allows(lim, old(View()), key, now)
      ensures View() == AfterAllow(lim, old(View()), key, now)
      ensures View().Keys == old(View()).Keys + {key} && View()[key].lastSeen == now
      ensures forall k | k in old(View()) && k != key :: View()[k] == old(View())[k]
    {
      if key !in limiters {
        var entry := new LimiterEntry(FullBucket(lim, now), now);
        limiters := limiters[key := entry];
      }
      var e := limiters[key];
      e.lastSeen := now;
      ok := Permits(lim, e.bucket, now);
      e.bucket := Spend(lim, e.bucket, now);
    }

    /** One tick of the cleanup loop. */
    method Cleanup(now: real, maxIdle: real)
      requires Valid()
      modifies this
      ensures Valid() && View() == Purged(old(View()), now, maxIdle)
      ensures forall key :: key in View() <==> key in old(View()) && now - old(View())[key].lastSeen <= maxIdle
      ensures forall key | key in View() :: View()[key] == old(View())[key]
    {
      var rest := limiters.Keys;
      while rest != {}
        invariant Valid() && rest <= limiters.Keys <= old(limiters).Keys
        invariant forall key | key in limiters :: limiters[key] == old(limiters)[key]
        invariant forall key | key in old(limiters) ::
                    key in limiters <==> key in rest || !(now - old(limiters)[key].lastSeen > maxIdle)
        decreases rest
      {
        var key :| key in rest;
        rest := rest - {key};
        if now - limiters[key].lastSeen > maxIdle {
          limiters := limiters - {key};
        }
      }
    }
  }
}
