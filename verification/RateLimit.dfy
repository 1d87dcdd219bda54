/** The per-IP rate limiter as functions, and the claim that its sweep cannot be observed. */
module RateLimit {
  import opened Prelude

  const IDLE: Time := 600_000_000
  const SWEEP_EVERY: Time := 60_000_000

  /** One token every `interval`, up to `burst` of them. Credit is counted in time: a token is worth one interval. */
  datatype Config = Config(interval: nat, burst: nat)
  {
    function Cap(): nat {
      burst * interval
    }
  }

  const LOGIN := Config(12_000_000, 5)
  const REGISTER := Config(60_000_000, 3)

  datatype Bucket = Bucket(credit: nat, last: Time)

  function Refilled(c: Config, b: Bucket, now: Time): nat {
    Min(c.Cap(), b.credit + Max(0, now - b.last))
  }

  /** rate.Limiter.Allow: spend one token if a whole one is there, otherwise leave the bucket as it was. */
  function Take(c: Config, b: Bucket, now: Time): (Bucket, bool) {
    if c.interval <= Refilled(c, b, now) then (Bucket(Refilled(c, b, now) - c.interval, now), true) else (b, false)
  }

  function NewBucket(c: Config, now: Time): Bucket {
    Bucket(c.Cap(), now)
  }

  datatype Visitor = Visitor(bucket: Bucket, lastSeen: Time)

  datatype Limiter = Limiter(visitors: map<string, Visitor>, nextSweep: Time)

  /** allow reads the clock on entry (`seen`), and the bucket reads it again after the lock is released (`used`). */
  datatype Request = Request(ip: string, seen: Time, used: Time)

  function Sweep(l: Limiter, now: Time): Limiter {
    if l.nextSweep < now then
      Limiter(map ip <- l.visitors | now - l.visitors[ip].lastSeen <= IDLE :: l.visitors[ip], now + SWEEP_EVERY)
    else l
  }

  function VisitorFor(c: Config, l: Limiter, r: Request): Visitor {
    if r.ip in l.visitors then l.visitors[r.ip] else Visitor(NewBucket(c, r.seen), r.seen)
  }

  function Allow(c: Config, l: Limiter, r: Request): (Limiter, bool) {
    var swept := Sweep(l, r.seen);
    var (bucket, ok) := Take(c, VisitorFor(c, swept, r).bucket, r.used);
    (Limiter(swept.visitors[r.ip := Visitor(bucket, r.seen)], swept.nextSweep), ok)
  }

  /** The limiter that never forgets. */
  function AllowIdeal(c: Config, buckets: map<string, Bucket>, r: Request): (map<string, Bucket>, bool) {
    var (bucket, ok) := Take(c, if r.ip in buckets then buckets[r.ip] else NewBucket(c, r.seen), r.used);
    (buckets[r.ip := bucket], ok)
  }

  // ----- Runs -----

  ghost function After(c: Config, l: Limiter, rs: seq<Request>, n: nat): Limiter
    requires n <= |rs|
  {
    if n == 0 then l else Allow(c, After(c, l, rs, n - 1), rs[n - 1]).0
  }

  ghost function IdealAfter(c: Config, rs: seq<Request>, n: nat): map<string, Bucket>
    requires n <= |rs|
  {
    if n == 0 then map[] else AllowIdeal(c, IdealAfter(c, rs, n - 1), rs[n - 1]).0
  }

  ghost function Answer(c: Config, l: Limiter, rs: seq<Request>, i: nat): bool
    requires i < |rs|
  {
    Allow(c, After(c, l, rs, i), rs[i]).1
  }

  ghost function IdealAnswer(c: Config, rs: seq<Request>, i: nat): bool
    requires i < |rs|
  {
    AllowIdeal(c, IdealAfter(c, rs, i), rs[i]).1
  }

  /** Requests reach their buckets in time order, each at most `lag` after it was seen. */
  ghost predicate Ordered(rs: seq<Request>, lag: nat) {
    && (forall i :: 0 <= i < |rs| ==> rs[i].used - lag <= rs[i].seen <= rs[i].used)
    && (forall i, j :: 0 <= i <= j < |rs| ==> rs[i].used <= rs[j].used)
  }

  function Empty(start: Time): Limiter {
    Limiter(map[], start)
  }

  // ----- The sweep is invisible -----

  /** The two buckets answer alike from `now` on: they are equal, or both are full. */
  predicate Alike(c: Config, a: Bucket, b: Bucket, now: Time) {
    a == b || Refilled(c, a, now) == Refilled(c, b, now) == c.Cap()
  }

  lemma AlikeStays(c: Config, a: Bucket, b: Bucket, prior: Time, now: Time)
    requires Alike(c, a, b, prior) && prior <= now
    ensures Alike(c, a, b, now)
    ensures Take(c, a, now).1 == Take(c, b, now).1 && Alike(c, Take(c, a, now).0, Take(c, b, now).0, now)
  {
  }

  /** An evicted visitor's ideal bucket is full; a kept one's is like its own and was not used long after it was last
      seen. */
  ghost predicate Mirrors(c: Config, l: Limiter, buckets: map<string, Bucket>, lag: nat, now: Time, ip: string) {
    && (ip in l.visitors ==> ip in buckets)
    && (ip in buckets ==>
          if ip in l.visitors then
            Alike(c, l.visitors[ip].bucket, buckets[ip], now)
                && buckets[ip].last <= Min(now, l.visitors[ip].lastSeen + lag)
          else buckets[ip].last <= now && Refilled(c, buckets[ip], now) == c.Cap())
  }

  /** A moment by which the first n requests had reached their buckets, and none of the later ones had passed it. */
  function Reached(rs: seq<Request>, n: nat): Time
    requires n <= |rs|
  {
    if 0 < n then rs[n - 1].used else if rs == [] then 0 else rs[0].used
  }

  lemma SweepMirrors(c: Config, l: Limiter, buckets: map<string, Bucket>, lag: nat, prior: Time, r: Request, ip: string)
    requires Mirrors(c, l, buckets, lag, prior, ip) && prior <= r.used && r.seen <= r.used
    requires c.Cap() + lag <= IDLE + 1
    ensures Mirrors(c, Sweep(l, r.seen), buckets, lag, r.used, ip)
  {
  }

  lemma AllowMirrors(c: Config, l: Limiter, buckets: map<string, Bucket>, lag: nat, prior: Time, r: Request, ip: string)
    requires Mirrors(c, l, buckets, lag, prior, ip) && Mirrors(c, l, buckets, lag, prior, r.ip)
    requires prior <= r.used && r.used - lag <= r.seen <= r.used && c.Cap() + lag <= IDLE + 1
    ensures Allow(c, l, r).1 == AllowIdeal(c, buckets, r).1
    ensures Mirrors(c, Allow(c, l, r).0, AllowIdeal(c, buckets, r).0, lag, r.used, ip)
  {
    var swept := Sweep(l, r.seen);
    SweepMirrors(c, l, buckets, lag, prior, r, ip);
    SweepMirrors(c, l, buckets, lag, prior, r, r.ip);
    var ideal := if r.ip in buckets then buckets[r.ip] else NewBucket(c, r.seen);
    AlikeStays(c, VisitorFor(c, swept, r).bucket, ideal, r.used, r.used);
  }

  lemma {:induction false} MirrorsAlways(c: Config, start: Time, rs: seq<Request>, lag: nat, n: nat, ip: string)
    requires n <= |rs| && Ordered(rs, lag) && c.Cap() + lag <= IDLE + 1
    ensures Mirrors(c, After(c, Empty(start), rs, n), IdealAfter(c, rs, n), lag, Reached(rs, n), ip)
  {
    if n > 0 {
      var r := rs[n - 1];
      MirrorsAlways(c, start, rs, lag, n - 1, ip);
      MirrorsAlways(c, start, rs, lag, n - 1, r.ip);
      assert Reached(rs, n - 1) <= r.used;
      AllowMirrors(c, After(c, Empty(start), rs, n - 1), IdealAfter(c, rs, n - 1), lag, Reached(rs, n - 1), r, ip);
    }
  }

  /** Every answer is the one the limiter that never forgets would give. */
  lemma SweepIsInvisible(c: Config, start: Time, rs: seq<Request>, lag: nat, i: nat)
    requires i < |rs| && Ordered(rs, lag) && c.Cap() + lag <= IDLE + 1
    ensures Answer(c, Empty(start), rs, i) == IdealAnswer(c, rs, i)
  {
    MirrorsAlways(c, start, rs, lag, i, rs[i].ip);
    assert Reached(rs, i) <= rs[i].used;
    AllowMirrors(c, After(c, Empty(start), rs, i), IdealAfter(c, rs, i), lag, Reached(rs, i), rs[i], rs[i].ip);
  }

  // ----- Comparing with the limiter that never forgets -----

  ghost predicate AnswersAgree(c: Config, start: Time, rs: seq<Request>, i: nat) {
    i < |rs| ==> Answer(c, Empty(start), rs, i) == IdealAnswer(c, rs, i)
  }

  ghost predicate Invisible(c: Config, lag: nat) {
    forall start: Time, rs: seq<Request>, i: nat :: Ordered(rs, lag) ==> AnswersAgree(c, start, rs, i)
  }

  lemma SmallBucketsAreInvisible(c: Config, lag: nat)
    requires c.Cap() == 0 || c.Cap() + lag <= IDLE + 1
    ensures Invisible(c, lag)
  {
    forall start: Time, rs: seq<Request>, i: nat | Ordered(rs, lag)
      ensures AnswersAgree(c, start, rs, i)
    {
      if i < |rs| && c.Cap() + lag <= IDLE + 1 {
        SweepIsInvisible(c, start, rs, lag, i);
      }
    }
  }

  // ----- What a client can get through -----

  ghost function Answers(c: Config, start: Time, rs: seq<Request>): (answers: seq<bool>)
    ensures |answers| == |rs|
  {
    seq(|rs|, i requires 0 <= i < |rs| => Answer(c, Empty(start), rs, i))
  }

  ghost function IdealAnswers(c: Config, rs: seq<Request>): (answers: seq<bool>)
    ensures |answers| == |rs|
  {
    seq(|rs|, i requires 0 <= i < |rs| => IdealAnswer(c, rs, i))
  }

  /** How many requests of an address from the i-th up to the j-th were let through. */
  function Admitted(rs: seq<Request>, answers: seq<bool>, ip: string, i: nat, j: nat): nat
    requires i <= j <= |rs| == |answers|
  {
    if i == j then 0
    else Admitted(rs, answers, ip, i, j - 1) + if rs[j - 1].ip == ip && answers[j - 1] then 1 else 0
  }

  /** The credit those requests cost. */
  function Spending(c: Config, rs: seq<Request>, answers: seq<bool>, ip: string, i: nat, j: nat): nat
    requires i <= j <= |rs| == |answers|
  {
    if i == j then 0
    else Spending(c, rs, answers, ip, i, j - 1) + if rs[j - 1].ip == ip && answers[j - 1] then c.interval else 0
  }

  function Times(interval: nat, n: nat): nat {
    interval * n
  }

  lemma OneMoreTime(interval: nat, n: nat)
    ensures Times(interval, n + 1) == Times(interval, n) + interval
  {
  }

  lemma {:induction false} EachCostsOneInterval(
      c: Config, rs: seq<Request>, answers: seq<bool>, ip: string, i: nat, j: nat)
    requires i <= j <= |rs| == |answers|
    ensures Spending(c, rs, answers, ip, i, j) == Times(c.interval, Admitted(rs, answers, ip, i, j))
  {
    if i < j {
      EachCostsOneInterval(c, rs, answers, ip, i, j - 1);
      OneMoreTime(c.interval, Admitted(rs, answers, ip, i, j - 1));
    }
  }

  function CreditOf(c: Config, buckets: map<string, Bucket>, ip: string, now: Time): nat {
    if ip in buckets then Refilled(c, buckets[ip], now) else c.Cap()
  }

  /** What a client can spend at `now` once the first j requests have been answered. */
  ghost function CreditAfter(c: Config, rs: seq<Request>, j: nat, ip: string, now: Time): nat
    requires j <= |rs|
  {
    CreditOf(c, IdealAfter(c, rs, j), ip, now)
  }

  lemma OneMoreSpends(c: Config, rs: seq<Request>, ip: string, i: nat, j: nat, prior: Time)
    requires i < j <= |rs| && rs[j - 1].seen <= rs[j - 1].used && prior <= rs[j - 1].used
    ensures Spending(c, rs, IdealAnswers(c, rs), ip, i, j) + CreditAfter(c, rs, j, ip, rs[j - 1].used)
         <= Spending(c, rs, IdealAnswers(c, rs), ip, i, j - 1)
            + Min(c.Cap(), CreditAfter(c, rs, j - 1, ip, prior) + rs[j - 1].used - prior)
  {
  }

  /** Without eviction, what a client spent in the window and what it could still spend never exceed a full bucket and
      the window's refill. */
  lemma {:induction false} SpendingIsBounded(c: Config, rs: seq<Request>, lag: nat, ip: string, i: nat, j: nat)
    requires i < j <= |rs| && Ordered(rs, lag)
    ensures Spending(c, rs, IdealAnswers(c, rs), ip, i, j) + CreditAfter(c, rs, j, ip, rs[j - 1].used)
         <= c.Cap() + rs[j - 1].used - rs[i].used
  {
    if j == i + 1 {
      OneMoreSpends(c, rs, ip, i, j, rs[i].used);
    } else {
      SpendingIsBounded(c, rs, lag, ip, i, j - 1);
      OneMoreSpends(c, rs, ip, i, j, rs[j - 2].used);
    }
  }

  /** In a window of length `length` one address gets at most burst + floor(length / interval) through. */
  ghost predicate AdmitsAtMost(c: Config, rs: seq<Request>, answers: seq<bool>, ip: string, i: nat, j: nat, length: nat)
    requires 0 < c.interval && |answers| == |rs|
  {
    i < j <= |rs| && rs[j - 1].used - rs[i].used <= length ==>
      Admitted(rs, answers, ip, i, j) <= c.burst + length / c.interval
  }

  lemma IdealAdmissionIsBounded(c: Config, rs: seq<Request>, lag: nat, ip: string, i: nat, j: nat, length: nat)
    requires 0 < c.interval && Ordered(rs, lag)
    ensures AdmitsAtMost(c, rs, IdealAnswers(c, rs), ip, i, j, length)
  {
    if i < j <= |rs| && rs[j - 1].used - rs[i].used <= length {
      var n := Admitted(rs, IdealAnswers(c, rs), ip, i, j);
      SpendingIsBounded(c, rs, lag, ip, i, j);
      EachCostsOneInterval(c, rs, IdealAnswers(c, rs), ip, i, j);
      assert c.interval * n <= c.burst * c.interval + length;
      Divide(n, c.burst, c.interval, length);
    }
  }

  lemma SameAnswers(c: Config, start: Time, rs: seq<Request>, lag: nat)
    requires Ordered(rs, lag) && Invisible(c, lag)
    ensures Answers(c, start, rs) == IdealAnswers(c, rs)
  {
    forall k | 0 <= k < |rs|
      ensures Answers(c, start, rs)[k] == IdealAnswers(c, rs)[k]
    {
      assert AnswersAgree(c, start, rs, k);
    }
  }

  /** So the bound survives every eviction that cannot be observed. */
  lemma AdmissionIsBounded(
      c: Config, start: Time, rs: seq<Request>, lag: nat, ip: string, i: nat, j: nat, length: nat)
    requires 0 < c.interval && Ordered(rs, lag) && Invisible(c, lag)
    ensures AdmitsAtMost(c, rs, Answers(c, start, rs), ip, i, j, length)
  {
    SameAnswers(c, start, rs, lag);
    IdealAdmissionIsBounded(c, rs, lag, ip, i, j, length);
  }

  lemma Divide(n: nat, burst: nat, interval: nat, length: nat)
    requires 0 < interval && interval * n <= burst * interval + length
    ensures n <= burst + length / interval
  {
    var q := length / interval;
    assert length < q * interval + interval;
    assert (burst + q + 1) * interval == burst * interval + q * interval + interval;
    Cancel(n, burst + q + 1, interval);
  }

  lemma Cancel(x: int, y: int, k: nat)
    requires 0 < k && x * k < y * k
    ensures x < y
  {
    assert (x - y) * k == x * k - y * k;
    assert 0 <= x - y ==> 0 <= (x - y) * k;
  }

  // ----- Exactly which requests are let through -----

  lemma {:induction false} BucketsArePast(c: Config, rs: seq<Request>, lag: nat, n: nat, ip: string)
    requires n <= |rs| && Ordered(rs, lag)
    ensures ip in IdealAfter(c, rs, n) ==> 0 < n && IdealAfter(c, rs, n)[ip].last <= rs[n - 1].used
  {
    if n > 0 {
      BucketsArePast(c, rs, lag, n - 1, ip);
      if n > 1 {
        assert rs[n - 2].used <= rs[n - 1].used;
      }
    }
  }

  /** A request costs a token or nothing, and then credit grows with time up to a full bucket. */
  lemma OneRequestCosts(c: Config, buckets: map<string, Bucket>, r: Request, ip: string, now: Time)
    requires r.seen <= r.used <= now && (ip in buckets ==> buckets[ip].last <= r.used)
    ensures var (next, ok) := AllowIdeal(c, buckets, r);
      CreditOf(c, next, ip, now)
      == Min(c.Cap(), CreditOf(c, buckets, ip, r.used) - (if r.ip == ip && ok then c.interval else 0) + now - r.used)
  {
  }

  lemma OneMoreCosts(c: Config, rs: seq<Request>, lag: nat, ip: string, i: nat, j: nat)
    requires i < j < |rs| && Ordered(rs, lag)
    ensures Spending(c, rs, IdealAnswers(c, rs), ip, i, j) + CreditAfter(c, rs, j, ip, rs[j].used)
         == Spending(c, rs, IdealAnswers(c, rs), ip, i, j - 1) + CreditAfter(c, rs, j - 1, ip, rs[j - 1].used)
            + rs[j].used - rs[j - 1].used
         || CreditAfter(c, rs, j, ip, rs[j].used) == c.Cap()
  {
    BucketsArePast(c, rs, lag, j - 1, ip);
    if j > 1 {
      assert rs[j - 2].used <= rs[j - 1].used;
    }
    assert rs[j - 1].used <= rs[j].used;
    OneRequestCosts(c, IdealAfter(c, rs, j - 1), rs[j - 1], ip, rs[j].used);
    assert IdealAnswers(c, rs)[j - 1] == AllowIdeal(c, IdealAfter(c, rs, j - 1), rs[j - 1]).1;
  }

  /** Since some request at which the bucket was full, nothing has overflowed: credit and spending account for all the
      time. */
  lemma {:induction false} CreditIsAccountedFor(c: Config, rs: seq<Request>, lag: nat, ip: string, j: nat)
      returns (i: nat)
    requires j < |rs| && Ordered(rs, lag)
    ensures i <= j
    ensures Spending(c, rs, IdealAnswers(c, rs), ip, i, j) + CreditAfter(c, rs, j, ip, rs[j].used)
         == c.Cap() + rs[j].used - rs[i].used
  {
    if CreditAfter(c, rs, j, ip, rs[j].used) == c.Cap() {
      i := j;
    } else {
      i := CreditIsAccountedFor(c, rs, lag, ip, j - 1);
      OneMoreCosts(c, rs, lag, ip, i, j);
    }
  }

  /** One more request of the address fits into what the window from the i-th request to the j-th allows it. */
  ghost predicate Fits(c: Config, rs: seq<Request>, answers: seq<bool>, i: nat, j: nat)
    requires 0 < c.interval && |answers| == |rs| && j < |rs|
  {
    i <= j && rs[i].used <= rs[j].used ==>
      Admitted(rs, answers, rs[j].ip, i, j) + 1 <= c.burst + (rs[j].used - rs[i].used) / c.interval
  }

  lemma RefusedOnlyWhenFull(c: Config, rs: seq<Request>, lag: nat, j: nat)
    requires 0 < c.interval && j < |rs| && Ordered(rs, lag) && !IdealAnswer(c, rs, j)
    ensures exists i: nat :: !Fits(c, rs, IdealAnswers(c, rs), i, j)
  {
    var ip, answers := rs[j].ip, IdealAnswers(c, rs);
    var i := CreditIsAccountedFor(c, rs, lag, ip, j);
    var n, length := Admitted(rs, answers, ip, i, j), rs[j].used - rs[i].used;
    EachCostsOneInterval(c, rs, answers, ip, i, j);
    assert CreditAfter(c, rs, j, ip, rs[j].used) < c.interval;
    MoreThanFits(n, c.burst, c.interval, length);
    assert !Fits(c, rs, answers, i, j);
  }

  lemma MoreThanFits(n: nat, burst: nat, interval: nat, length: nat)
    requires 0 < interval && burst * interval + length < Times(interval, n) + interval
    ensures burst + length / interval < n + 1
  {
    var q := length / interval;
    assert q * interval <= length;
    assert (burst + q) * interval == burst * interval + q * interval;
    assert (n + 1) * interval == interval * n + interval;
    Cancel(burst + q, n + 1, interval);
  }

  /** A request is let through exactly when, in every window that ends with it, one more still fits: neither more
      requests nor fewer than the burst and the refill allow. */
  lemma AdmissionIsDetermined(c: Config, rs: seq<Request>, lag: nat, j: nat)
    requires 0 < c.interval && j < |rs| && Ordered(rs, lag)
    ensures IdealAnswer(c, rs, j) <==> forall i: nat :: Fits(c, rs, IdealAnswers(c, rs), i, j)
  {
    var answers := IdealAnswers(c, rs);
    if IdealAnswer(c, rs, j) {
      forall i: nat
        ensures Fits(c, rs, answers, i, j)
      {
        if i <= j && rs[i].used <= rs[j].used {
          IdealAdmissionIsBounded(c, rs, lag, rs[j].ip, i, j + 1, rs[j].used - rs[i].used);
          assert AdmitsAtMost(c, rs, answers, rs[j].ip, i, j + 1, rs[j].used - rs[i].used);
        }
      }
    } else {
      RefusedOnlyWhenFull(c, rs, lag, j);
    }
  }

  /** The limiter that sweeps decides the same way, as long as its sweep is invisible. */
  lemma AnswersAreDetermined(c: Config, start: Time, rs: seq<Request>, lag: nat, j: nat)
    requires 0 < c.interval && j < |rs| && Ordered(rs, lag) && Invisible(c, lag)
    ensures Answers(c, start, rs)[j] <==> forall i: nat :: Fits(c, rs, Answers(c, start, rs), i, j)
  {
    SameAnswers(c, start, rs, lag);
    AdmissionIsDetermined(c, rs, lag, j);
  }

  /** A limiter with no interval between tokens lets everything through. */
  lemma NoIntervalNoLimit(c: Config, start: Time, rs: seq<Request>, j: nat)
    requires c.interval == 0 && j < |rs|
    ensures Answers(c, start, rs)[j]
  {
  }

  // ----- A run in which the sweep shows -----

  /** Late enough for a sweep to forget a client last seen at 0. */
  function Late(lag: nat): Time {
    Max(IDLE + 1, lag)
  }

  /** One client spends every token at `lag`, is forgotten, and at once spends as many again. */
  function Twice(c: Config, lag: nat): seq<Request> {
    seq(2 * c.burst, i => if i < c.burst then Request("", 0, lag) else Request("", IDLE + 1, Late(lag)))
  }

  lemma TwiceIsOrdered(c: Config, lag: nat)
    ensures Ordered(Twice(c, lag), lag)
  {
    forall i | 0 <= i < 2 * c.burst
      ensures Twice(c, lag)[i] == if i < c.burst then Request("", 0, lag) else Request("", IDLE + 1, Late(lag))
    {
    }
  }

  /** What k requests leave of a full bucket. */
  function Left(c: Config, k: nat): int {
    c.Cap() - k * c.interval
  }

  lemma CapCovers(c: Config, k: nat)
    requires 1 <= k <= c.burst
    ensures c.interval <= Left(c, k - 1) <= c.Cap() && Left(c, k) == Left(c, k - 1) - c.interval
  {
    assert (c.burst - k) * c.interval >= 0;
    assert (c.burst - k) * c.interval == c.burst * c.interval - k * c.interval;
  }

  /** The limiter knows just this client, with this credit, from its last request. */
  ghost predicate Holds(l: Limiter, r: Request, credit: int) {
    && l.visitors.Keys == {r.ip} && r.seen <= l.nextSweep && l.visitors[r.ip].lastSeen == r.seen
    && l.visitors[r.ip].bucket.credit == credit && l.visitors[r.ip].bucket.last == r.used
  }

  lemma SpendOne(c: Config, l: Limiter, r: Request, credit: int)
    requires Holds(l, r, credit) && c.interval <= credit <= c.Cap()
    ensures Allow(c, l, r).1 && Holds(Allow(c, l, r).0, r, credit - c.interval)
    ensures Allow(c, l, r).0.nextSweep == l.nextSweep
  {
  }

  /** After the sweep the client starts with a new bucket. */
  lemma Forgotten(c: Config, l: Limiter, lag: nat, credit: int)
    requires Holds(l, Request("", 0, lag), credit) && l.nextSweep == 0 && c.interval <= c.Cap()
    ensures var r := Request("", IDLE + 1, Late(lag));
            Allow(c, l, r).1 && Holds(Allow(c, l, r).0, r, c.Cap() - c.interval)
  {
    assert Sweep(l, IDLE + 1).visitors == map[];
  }

  lemma {:induction false} SpentOnce(c: Config, lag: nat, k: nat)
    requires 1 <= k <= c.burst
    ensures Holds(After(c, Empty(0), Twice(c, lag), k), Twice(c, lag)[k - 1], Left(c, k))
    ensures After(c, Empty(0), Twice(c, lag), k).nextSweep == 0 && Answers(c, 0, Twice(c, lag))[k - 1]
  {
    var rs := Twice(c, lag);
    CapCovers(c, k);
    assert Answers(c, 0, rs)[k - 1] == Allow(c, After(c, Empty(0), rs, k - 1), rs[k - 1]).1;
    if k > 1 {
      SpentOnce(c, lag, k - 1);
      SpendOne(c, After(c, Empty(0), rs, k - 1), rs[k - 1], Left(c, k - 1));
    }
  }

  lemma SpentAgain(c: Config, lag: nat)
    requires 1 <= c.burst
    ensures Holds(After(c, Empty(0), Twice(c, lag), c.burst + 1), Twice(c, lag)[c.burst], Left(c, 1))
    ensures Answers(c, 0, Twice(c, lag))[c.burst]
  {
    var rs, n := Twice(c, lag), c.burst;
    CapCovers(c, 1);
    assert Answers(c, 0, rs)[n] == Allow(c, After(c, Empty(0), rs, n), rs[n]).1;
    SpentOnce(c, lag, n);
    Forgotten(c, After(c, Empty(0), rs, n), lag, Left(c, n));
  }

  lemma {:induction false} SpentTwice(c: Config, lag: nat, k: nat)
    requires 1 <= k <= c.burst
    ensures Holds(After(c, Empty(0), Twice(c, lag), c.burst + k), Twice(c, lag)[c.burst + k - 1], Left(c, k))
    ensures Answers(c, 0, Twice(c, lag))[c.burst + k - 1]
  {
    var rs, n := Twice(c, lag), c.burst + k - 1;
    if k == 1 {
      SpentAgain(c, lag);
    } else {
      CapCovers(c, k);
      assert Answers(c, 0, rs)[n] == Allow(c, After(c, Empty(0), rs, n), rs[n]).1;
      SpentTwice(c, lag, k - 1);
      SpendOne(c, After(c, Empty(0), rs, n), rs[n], Left(c, k - 1));
    }
  }

  lemma {:induction false} AllAdmitted(c: Config, lag: nat, n: nat)
    requires n <= 2 * c.burst
    ensures Admitted(Twice(c, lag), Answers(c, 0, Twice(c, lag)), "", 0, n) == n
  {
    if n > 0 {
      AllAdmitted(c, lag, n - 1);
      if n <= c.burst {
        SpentOnce(c, lag, n);
      } else {
        SpentTwice(c, lag, n - c.burst);
      }
    }
  }

  /** Twice the burst gets through in less time than one burst takes to refill. */
  lemma TwiceIsTooMuch(c: Config, lag: nat)
    requires 0 < c.Cap() && IDLE + 1 < c.Cap() + lag
    ensures !AdmitsAtMost(c, Twice(c, lag), Answers(c, 0, Twice(c, lag)), "", 0, 2 * c.burst, Late(lag) - lag)
  {
    var length := Late(lag) - lag;
    AllAdmitted(c, lag, 2 * c.burst);
    Quotient(length, c.burst, c.interval);
  }

  lemma Quotient(length: nat, burst: nat, interval: nat)
    requires 0 < interval && length < burst * interval
    ensures length / interval < burst
  {
    assert length / interval * interval <= length;
    Cancel(length / interval, burst, interval);
  }

  // ----- Exactly when the sweep is invisible -----

  /** No run tells the sweeping limiter from the one that never forgets, just when a bucket idle long enough to be swept
      is full. */
  lemma InvisibilityIsExact(c: Config, lag: nat)
    ensures Invisible(c, lag) <==> c.Cap() == 0 || c.Cap() + lag <= IDLE + 1
  {
    if c.Cap() == 0 || c.Cap() + lag <= IDLE + 1 {
      SmallBucketsAreInvisible(c, lag);
    } else {
      TwiceIsTooMuch(c, lag);
      TwiceIsOrdered(c, lag);
      if Invisible(c, lag) {
        AdmissionIsBounded(c, 0, Twice(c, lag), lag, "", 0, 2 * c.burst, Late(lag) - lag);
      }
    }
  }

  ghost predicate Bounded(c: Config, lag: nat)
    requires 0 < c.interval
  {
    forall start: Time, rs: seq<Request>, ip: string, i: nat, j: nat, length: nat ::
      Ordered(rs, lag) ==> AdmitsAtMost(c, rs, Answers(c, start, rs), ip, i, j, length)
  }

  /** In every run and every window one address gets at most burst + floor(length / interval) through, just under the
      same condition. */
  lemma AdmissionIsExact(c: Config, lag: nat)
    requires 0 < c.interval
    ensures Bounded(c, lag) <==> c.Cap() == 0 || c.Cap() + lag <= IDLE + 1
  {
    if c.Cap() == 0 || c.Cap() + lag <= IDLE + 1 {
      SmallBucketsAreInvisible(c, lag);
      forall start: Time, rs: seq<Request>, ip: string, i: nat, j: nat, length: nat | Ordered(rs, lag)
        ensures AdmitsAtMost(c, rs, Answers(c, start, rs), ip, i, j, length)
      {
        AdmissionIsBounded(c, start, rs, lag, ip, i, j, length);
      }
    } else {
      TwiceIsTooMuch(c, lag);
      TwiceIsOrdered(c, lag);
    }
  }

  /** The limiters the server builds: a request would have to stall for minutes between its two clock readings for a
      sweep to show. */
  lemma ConfiguredLimitersAreExact(lag: nat)
    ensures Invisible(LOGIN, lag) <==> lag <= 9 * MINUTE + 1
    ensures Bounded(LOGIN, lag) <==> lag <= 9 * MINUTE + 1
    ensures Invisible(REGISTER, lag) <==> lag <= 7 * MINUTE + 1
    ensures Bounded(REGISTER, lag) <==> lag <= 7 * MINUTE + 1
  {
    InvisibilityIsExact(LOGIN, lag);
    InvisibilityIsExact(REGISTER, lag);
    AdmissionIsExact(LOGIN, lag);
    AdmissionIsExact(REGISTER, lag);
  }

  // ----- What the limiter remembers -----

  ghost predicate Remembers(l: Limiter, now: Time) {
    && now <= l.nextSweep <= now + SWEEP_EVERY
    && forall ip <- l.visitors :: l.nextSweep - SWEEP_EVERY - IDLE <= l.visitors[ip].lastSeen <= now
  }

  /** With clock readings in order, every visitor still held was seen within eleven minutes of the last request. */
  lemma {:induction false} MemoryIsBounded(c: Config, start: Time, rs: seq<Request>, n: nat)
    requires 1 <= n <= |rs| && start <= rs[0].seen
    requires forall i, j :: 0 <= i <= j < n ==> rs[i].seen <= rs[j].seen
    ensures Remembers(After(c, Empty(start), rs, n), rs[n - 1].seen)
    ensures forall ip <- After(c, Empty(start), rs, n).visitors ::
      rs[n - 1].seen - 11 * MINUTE <= After(c, Empty(start), rs, n).visitors[ip].lastSeen
  {
    if n > 1 {
      MemoryIsBounded(c, start, rs, n - 1);
      assert rs[n - 2].seen <= rs[n - 1].seen;
    }
  }

  ghost predicate SeenInOrder(rs: seq<Request>) {
    forall i, j :: 0 <= i <= j < |rs| ==> rs[i].seen <= rs[j].seen
  }

  /** Nobody is forgotten early: a visitor seen within the last ten minutes is still held. */
  lemma {:induction false} RecentVisitorsAreKept(c: Config, start: Time, rs: seq<Request>, i: nat, n: nat)
    requires i < n <= |rs| && SeenInOrder(rs) && rs[n - 1].seen - rs[i].seen <= 10 * MINUTE
    ensures var visitors := After(c, Empty(start), rs, n).visitors;
      rs[i].ip in visitors && rs[i].seen <= visitors[rs[i].ip].lastSeen
  {
    if i + 1 < n {
      assert rs[n - 2].seen <= rs[n - 1].seen;
      RecentVisitorsAreKept(c, start, rs, i, n - 1);
    }
  }

  ghost predicate SweepsAt(c: Config, start: Time, rs: seq<Request>, i: nat)
    requires i < |rs|
  {
    After(c, Empty(start), rs, i + 1).nextSweep != After(c, Empty(start), rs, i).nextSweep
  }

  lemma {:induction false} NextSweepAdvances(c: Config, start: Time, rs: seq<Request>, i: nat, j: nat)
    requires i <= j <= |rs|
    ensures After(c, Empty(start), rs, i).nextSweep <= After(c, Empty(start), rs, j).nextSweep
  {
    if i < j {
      NextSweepAdvances(c, start, rs, i, j - 1);
    }
  }

  /** Two sweeps are more than a minute apart. */
  lemma SweepsAreSpaced(c: Config, start: Time, rs: seq<Request>, i: nat, j: nat)
    requires i < j < |rs| && SweepsAt(c, start, rs, i) && SweepsAt(c, start, rs, j)
    ensures rs[i].seen + MINUTE < rs[j].seen
  {
    NextSweepAdvances(c, start, rs, i + 1, j);
  }
}
