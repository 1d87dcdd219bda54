/** The limiter as the server keeps it: a table of visitor objects, swept and updated in place. */
module IpLimiter {
  import opened Prelude
  import R = RateLimit

  class Visitor {
    var bucket: R.Bucket
    var lastSeen: Time

    function View(): R.Visitor
      reads this
    {
      R.Visitor(bucket, lastSeen)
    }

    constructor (config: R.Config, now: Time)
      ensures View() == R.Visitor(R.NewBucket(config, now), now)
    {
      bucket, lastSeen := R.NewBucket(config, now), now;
    }

    /** rate.Limiter.Allow for one token. */
    method Take(config: R.Config, now: Time) returns (ok: bool)
      modifies this`bucket
      ensures (bucket, ok) == R.Take(config, old(bucket), now)
    {
      var credit := R.Refilled(config, bucket, now);
      ok := config.interval <= credit;
      if ok {
        bucket := R.Bucket(credit - config.interval, now);
      }
    }
  }

  class Limiter {
    const config: R.Config
    var visitors: map<string, Visitor>
    var nextSweep: Time

    /** No two addresses share a visitor. */
    ghost predicate Valid()
      reads this
    {
      forall a <- visitors, b <- visitors :: a != b ==> visitors[a] != visitors[b]
    }

    ghost function View(): R.Limiter
      reads this, visitors.Values
    {
      R.Limiter(map ip <- visitors :: visitors[ip].View(), nextSweep)
    }

    constructor (config: R.Config, start: Time)
      ensures Valid() && this.config == config && View() == R.Empty(start)
    {
      this.config := config;
      visitors, nextSweep := map[], start;
    }

    /** The loop of the sweep, before the next one is scheduled. */
    method Evict(now: Time)
      modifies this`visitors
      ensures visitors.Keys <= old(visitors.Keys) && forall ip <- visitors :: visitors[ip] == old(visitors)[ip]
      ensures forall ip <- old(visitors) :: ip in visitors <==> now - old(visitors)[ip].lastSeen <= R.IDLE
    {
      var unseen := visitors.Keys;
      while unseen != {}
        invariant unseen <= visitors.Keys <= old(visitors.Keys)
        invariant forall ip <- visitors :: visitors[ip] == old(visitors)[ip]
        invariant forall ip <- old(visitors) ::
          ip in visitors <==> ip in unseen || now - old(visitors)[ip].lastSeen <= R.IDLE
        decreases |unseen|
      {
        var ip :| ip in unseen;
        unseen := unseen - {ip};
        if R.IDLE < now - visitors[ip].lastSeen {
          visitors := visitors - {ip};
        }
      }
    }

    method Sweep(now: Time)
      requires Valid()
      modifies this
      ensures Valid() && visitors.Values <= old(visitors.Values)
      ensures View() == R.Sweep(old(View()), now)
    {
      if nextSweep < now {
        Evict(now);
        nextSweep := now + R.SWEEP_EVERY;
        forall v <- visitors.Values
          ensures v in old(visitors.Values)
        {
          var ip :| ip in visitors && visitors[ip] == v;
          assert old(visitors)[ip] == v;
        }
        assert View().visitors == R.Sweep(old(View()), now).visitors;
      } else {
        assert View().visitors == old(View()).visitors;
      }
    }

    /** The visitor of an address, made on first sight. */
    method Find(ip: string, seen: Time, used: Time) returns (v: Visitor)
      requires Valid()
      modifies this`visitors
      ensures Valid() && ip in visitors && visitors[ip] == v
      ensures if ip in old(visitors) then v == old(visitors)[ip] else fresh(v)
      ensures visitors.Values <= old(visitors.Values) + {v}
      ensures v.View() == R.VisitorFor(config, old(View()), R.Request(ip, seen, used))
      ensures View() == R.Limiter(old(View()).visitors[ip := v.View()], nextSweep)
    {
      if ip in visitors {
        v := visitors[ip];
      } else {
        v := new Visitor(config, seen);
        visitors := visitors[ip := v];
      }
      assert View().visitors == old(View()).visitors[ip := v.View()];
    }

    /** `seen` is the clock reading on entry, `used` the one the bucket makes after the lock is released. */
    method Allow(ip: string, seen: Time, used: Time) returns (ok: bool)
      requires Valid()
      modifies this, visitors.Values
      ensures Valid()
      ensures forall v <- visitors.Values :: v in old(visitors.Values) || fresh(v)
      ensures (View(), ok) == R.Allow(config, old(View()), R.Request(ip, seen, used))
    {
      Sweep(seen);
      ghost var swept := View();
      var v := Find(ip, seen, used);
      ok := Use(ip, v, seen, used);
      assert View().visitors == swept.visitors[ip := v.View()];
    }

    method Use(ip: string, v: Visitor, seen: Time, used: Time) returns (ok: bool)
      requires Valid() && ip in visitors && visitors[ip] == v
      modifies v
      ensures Valid() && (v.bucket, ok) == R.Take(config, old(v.bucket), used) && v.lastSeen == seen
      ensures View() == R.Limiter(old(View()).visitors[ip := v.View()], nextSweep)
    {
      v.lastSeen := seen;
      ok := v.Take(config, used);
      assert View().visitors == old(View()).visitors[ip := v.View()];
    }
  }
}
