/** The bridge's sliding-window limiter with occasional deletion, and Hamilton Core's per-minute counters. */
module RateLimits {
  const RATE_LIMIT := 60
  const RATE_WINDOW := 60
  const SWEEP_EVERY := 20

  // ---------- sliding window ----------

  datatype Hit = Hit(ip: string, ts: int)

  /** The rows left by a deletion of everything older than the cutoff. */
  function Purge(rows: seq<Hit>, cutoff: int): seq<Hit> {
    if rows == [] then [] else
      var front, h := Purge(rows[..|rows| - 1], cutoff), rows[|rows| - 1];
      if h.ts < cutoff then front else front + [h]
  }

  function Count(rows: seq<Hit>, ip: string, cutoff: int): nat {
    if rows == [] then 0 else
      var h := rows[|rows| - 1];
      Count(rows[..|rows| - 1], ip, cutoff) + if h.ip == ip && h.ts >= cutoff then 1 else 0
  }

  function Record(rows: seq<Hit>, h: Hit): seq<Hit> {
    if h.ts % SWEEP_EVERY == 0 then Purge(rows + [h], h.ts - RATE_WINDOW) else rows + [h]
  }

  /** At most the limit of rows of the request's address within its window. */
  predicate Allowed(rows: seq<Hit>, h: Hit) {
    Count(rows, h.ip, h.ts - RATE_WINDOW) <= RATE_LIMIT
  }

  /** The positions of an address's requests in the 60 seconds that end at a time, that time and the first included. */
  function Recent(hits: seq<Hit>, ip: string, now: int): set<nat> {
    set i: nat | i < |hits| && hits[i].ip == ip && hits[i].ts >= now - 60
  }

  lemma {:induction false} CountIsSize(hits: seq<Hit>, ip: string, now: int)
    ensures Count(hits, ip, now - RATE_WINDOW) == |Recent(hits, ip, now)|
  {
    if hits != [] {
      var n := |hits| - 1;
      CountIsSize(hits[..n], ip, now);
      if hits[n].ip == ip && hits[n].ts >= now - 60 {
        assert Recent(hits, ip, now) == Recent(hits[..n], ip, now) + {n};
      } else {
        assert Recent(hits, ip, now) == Recent(hits[..n], ip, now);
      }
    }
  }

  class SlidingWindow {
    var rows: seq<Hit>

    constructor ()
      ensures rows == []
    {
      rows := [];
    }

    method DeleteBefore(cutoff: int)
      modifies this
      ensures rows == Purge(old(rows), cutoff)
    {
      var kept := [];
      for i := 0 to |rows|
        invariant rows == old(rows) && kept == Purge(rows[..i], cutoff)
      {
        assert rows[..i + 1][..i] == rows[..i];
        if rows[i].ts >= cutoff {
          kept := kept + [rows[i]];
        }
      }
      assert rows[..|rows|] == rows;
      rows := kept;
    }

    method CheckRateLimit(ip: string, now: int) returns (ok: bool)
      modifies this
      ensures rows == Record(old(rows), Hit(ip, now))
      ensures ok <==> Allowed(rows, Hit(ip, now))
      ensures ok <==> |Recent(rows, ip, now)| <= 60
    {
      var cutoff := now - RATE_WINDOW;
      rows := rows + [Hit(ip, now)];
      if now % SWEEP_EVERY == 0 {
        DeleteBefore(cutoff);
      }
      var count := 0;
      for i := 0 to |rows|
        invariant rows == Record(old(rows), Hit(ip, now)) && count == Count(rows[..i], ip, cutoff)
      {
        assert rows[..i + 1][..i] == rows[..i];
        if rows[i].ip == ip && rows[i].ts >= cutoff {
          count := count + 1;
        }
      }
      assert rows[..|rows|] == rows;
      CountIsSize(rows, ip, now);
      ok := count <= RATE_LIMIT;
    }
  }

  /** The table after a run of requests. */
  function Rows(hits: seq<Hit>): seq<Hit> {
    if hits == [] then [] else Record(Rows(hits[..|hits| - 1]), hits[|hits| - 1])
  }

  /** The decision on the last request of a run. */
  predicate AcceptsLast(hits: seq<Hit>)
    requires hits != []
  {
    Allowed(Rows(hits), hits[|hits| - 1])
  }

  predicate Nondecreasing(hits: seq<Hit>) {
    forall i, j :: 0 <= i < j < |hits| ==> hits[i].ts <= hits[j].ts
  }

  lemma CountSnoc(rows: seq<Hit>, h: Hit, ip: string, cutoff: int)
    ensures Count(rows + [h], ip, cutoff) == Count(rows, ip, cutoff) + if h.ip == ip && h.ts >= cutoff then 1 else 0
  {
    assert (rows + [h])[..|rows|] == rows;
  }

  lemma {:induction false} PurgeKeepsCounts(rows: seq<Hit>, cutoff: int, ip: string, since: int)
    requires since >= cutoff
    ensures Count(Purge(rows, cutoff), ip, since) == Count(rows, ip, since)
  {
    if rows != [] {
      var front, h := rows[..|rows| - 1], rows[|rows| - 1];
      PurgeKeepsCounts(front, cutoff, ip, since);
      CountSnoc(Purge(front, cutoff), h, ip, since);
    }
  }

  lemma RecordCountsAlike(rows: seq<Hit>, h: Hit, ip: string, since: int)
    requires since >= h.ts - RATE_WINDOW
    ensures Count(Record(rows, h), ip, since) == Count(rows, ip, since) + if h.ip == ip && h.ts >= since then 1 else 0
  {
    CountSnoc(rows, h, ip, since);
    PurgeKeepsCounts(rows + [h], h.ts - RATE_WINDOW, ip, since);
  }

  lemma FrontInOrder(hits: seq<Hit>)
    requires hits != [] && Nondecreasing(hits)
    ensures var front := hits[..|hits| - 1];
            Nondecreasing(front) && (front != [] ==> front[|front| - 1].ts <= hits[|hits| - 1].ts)
  {
  }

  /** Deletion never loses a row that a current or later window could count. */
  lemma {:induction false} RowsCountAlike(hits: seq<Hit>, ip: string, since: int)
    requires Nondecreasing(hits) && (hits != [] ==> since >= hits[|hits| - 1].ts - RATE_WINDOW)
    ensures Count(Rows(hits), ip, since) == Count(hits, ip, since)
  {
    if hits != [] {
      var front, h := hits[..|hits| - 1], hits[|hits| - 1];
      FrontInOrder(hits);
      RowsCountAlike(front, ip, since);
      RecordCountsAlike(Rows(front), h, ip, since);
    }
  }

  /** With a clock that never steps back, every decision is the one a limiter that deletes nothing would take. */
  lemma DeletionChangesNoDecision(hits: seq<Hit>)
    requires hits != [] && Nondecreasing(hits)
    ensures AcceptsLast(hits) <==> Allowed(hits, hits[|hits| - 1])
  {
    var h := hits[|hits| - 1];
    RowsCountAlike(hits, h.ip, h.ts - RATE_WINDOW);
  }

  /** With such a clock, a request is accepted if and only if at most 60 requests of its address, itself included, fall
      into the 60 seconds before it. */
  lemma AcceptedIff(hits: seq<Hit>)
    requires hits != [] && Nondecreasing(hits)
    ensures var h := hits[|hits| - 1]; AcceptsLast(hits) <==> |Recent(hits, h.ip, h.ts)| <= 60
  {
    var h := hits[|hits| - 1];
    DeletionChangesNoDecision(hits);
    CountIsSize(hits, h.ip, h.ts);
  }

  function Flood(ip: string, ts: int, n: nat): seq<Hit> {
    seq(n, i requires 0 <= i < n => Hit(ip, ts))
  }

  lemma {:induction false} FloodRecent(ip: string, ts: int, n: nat)
    ensures |Recent(Flood(ip, ts, n), ip, ts)| == n
  {
    if n > 0 {
      FloodRecent(ip, ts, n - 1);
      assert Flood(ip, ts, n)[..n - 1] == Flood(ip, ts, n - 1);
      assert Recent(Flood(ip, ts, n), ip, ts) == Recent(Flood(ip, ts, n - 1), ip, ts) + {n - 1};
    }
  }

  /** Sixty requests of an address within one second are accepted, and from the 61st on they are refused. */
  lemma SixtyPass(ip: string, ts: int, n: nat)
    requires n > 0
    ensures AcceptsLast(Flood(ip, ts, n)) <==> n <= 60
  {
    AcceptedIff(Flood(ip, ts, n));
    FloodRecent(ip, ts, n);
  }

  lemma {:induction false} PurgeLeaves(rows: seq<Hit>, cutoff: int)
    ensures forall h :: h in Purge(rows, cutoff) <==> h in rows && h.ts >= cutoff
  {
    if rows != [] {
      PurgeLeaves(rows[..|rows| - 1], cutoff);
      assert rows == rows[..|rows| - 1] + [rows[|rows| - 1]];
    }
  }

  lemma RecordSweeps(rows: seq<Hit>, h: Hit)
    requires h.ts % 20 == 0
    ensures forall r :: r in Record(rows, h) <==> (r in rows || r == h) && r.ts >= h.ts - 60
  {
    PurgeLeaves(rows + [h], h.ts - RATE_WINDOW);
    assert forall r :: r in rows + [h] <==> r in rows || r == h;
  }

  /** The table is swept at every twentieth second, of what is older than 60 seconds and of nothing else. */
  lemma SweptAtTwenty(hits: seq<Hit>)
    requires hits != []
    ensures var front, h := Rows(hits[..|hits| - 1]), hits[|hits| - 1];
            if h.ts % 20 == 0 then forall r :: r in Rows(hits) <==> (r in front || r == h) && r.ts >= h.ts - 60
            else Rows(hits) == front + [h]
  {
    var front, h := Rows(hits[..|hits| - 1]), hits[|hits| - 1];
    if h.ts % 20 == 0 {
      RecordSweeps(front, h);
    }
  }

  /** How many requests of an address were accepted at times from lo to hi. */
  function AcceptedIn(hits: seq<Hit>, ip: string, lo: int, hi: int): nat {
    if hits == [] then 0 else
      var h := hits[|hits| - 1];
      AcceptedIn(hits[..|hits| - 1], ip, lo, hi) + if h.ip == ip && lo <= h.ts <= hi && AcceptsLast(hits) then 1 else 0
  }

  lemma {:induction false} AcceptedWereCounted(hits: seq<Hit>, ip: string, lo: int, hi: int, cutoff: int)
    requires cutoff <= lo
    ensures AcceptedIn(hits, ip, lo, hi) <= Count(hits, ip, cutoff)
  {
    if hits != [] {
      AcceptedWereCounted(hits[..|hits| - 1], ip, lo, hi, cutoff);
    }
  }

  /** No closed window of 60 seconds holds more than 60 accepted requests of one address. */
  lemma {:induction false} WindowBound(hits: seq<Hit>, ip: string, t: int)
    requires Nondecreasing(hits)
    ensures AcceptedIn(hits, ip, t - RATE_WINDOW, t) <= RATE_LIMIT
  {
    if hits != [] {
      var h := hits[|hits| - 1];
      if h.ip == ip && t - RATE_WINDOW <= h.ts <= t && AcceptsLast(hits) {
        DeletionChangesNoDecision(hits);
        AcceptedWereCounted(hits, ip, t - RATE_WINDOW, t, h.ts - RATE_WINDOW);
      } else {
        WindowBound(hits[..|hits| - 1], ip, t);
      }
    }
  }

  // ---------- minute buckets ----------

  const BUCKET_SECONDS := 60

  datatype Who = Who(endpoint: string, client: string)

  datatype Bucket = Bucket(who: Who, minute: int)

  datatype Counter = Counter(count: nat, expires: real)

  datatype Call = Call(who: Who, at: real)

  function Minute(at: real): int {
    at.Floor / BUCKET_SECONDS
  }

  function BucketOf(c: Call): Bucket {
    Bucket(c.who, Minute(c.at))
  }

  /** The counters Redis still holds at a time. */
  function Unexpired(counters: map<Bucket, Counter>, at: real): map<Bucket, Counter> {
    map b | b in counters && at < counters[b].expires :: counters[b]
  }

  /** INCR on the call's bucket; the first increment starts its 60 seconds to live. */
  function Increment(counters: map<Bucket, Counter>, c: Call): map<Bucket, Counter> {
    var live, b := Unexpired(counters, c.at), BucketOf(c);
    live[b := if b in live then live[b].(count := live[b].count + 1) else Counter(1, c.at + BUCKET_SECONDS as real)]
  }

  class FixedWindow {
    var counters: map<Bucket, Counter>

    constructor ()
      ensures counters == map[]
    {
      counters := map[];
    }

    method RateLimit(c: Call, limit: nat) returns (ok: bool)
      modifies this
      ensures counters == Increment(old(counters), c)
      ensures ok <==> counters[BucketOf(c)].count <= limit
    {
      var b := BucketOf(c);
      counters := Unexpired(counters, c.at);
      var count := 1;
      if b in counters {
        count := counters[b].count + 1;
        counters := counters[b := counters[b].(count := count)];
      } else {
        counters := counters[b := Counter(1, c.at + BUCKET_SECONDS as real)];
      }
      ok := count <= limit;
    }
  }

  function CountersAfter(calls: seq<Call>): map<Bucket, Counter> {
    if calls == [] then map[] else Increment(CountersAfter(calls[..|calls| - 1]), calls[|calls| - 1])
  }

  /** How many calls fell into a bucket. */
  function Fell(calls: seq<Call>, b: Bucket): nat {
    if calls == [] then 0 else
      Fell(calls[..|calls| - 1], b) + if BucketOf(calls[|calls| - 1]) == b then 1 else 0
  }

  predicate InOrder(calls: seq<Call>) {
    forall i, j :: 0 <= i < j < |calls| ==> calls[i].at <= calls[j].at
  }

  lemma MinuteEnds(at: real)
    ensures (Minute(at) * BUCKET_SECONDS) as real <= at < ((Minute(at) + 1) * BUCKET_SECONDS) as real
  {
  }

  /** A bucket whose minute is not over has lost no call: its counter is exact and outlives the minute. */
  lemma {:induction false} CountersAreExact(calls: seq<Call>, b: Bucket)
    requires InOrder(calls)
    requires calls != [] ==> calls[|calls| - 1].at < ((b.minute + 1) * BUCKET_SECONDS) as real
    ensures var counters := CountersAfter(calls);
            && (b in counters <==> Fell(calls, b) > 0)
            && (b in counters ==> counters[b].count == Fell(calls, b) &&
                                  ((b.minute + 1) * 60) as real <= counters[b].expires < ((b.minute + 2) * 60) as real)
  {
    if calls != [] {
      var front, c := calls[..|calls| - 1], calls[|calls| - 1];
      assert front != [] ==> front[|front| - 1] == calls[|calls| - 2];
      CountersAreExact(front, b);
      MinuteEnds(c.at);
    }
  }

  /** The decision on the last call of a run. */
  predicate Admitted(calls: seq<Call>, limit: nat)
    requires calls != []
  {
    CountersAfter(calls)[BucketOf(calls[|calls| - 1])].count <= limit
  }

  /** A call is admitted exactly when its minute has seen at most limit calls of this client, itself included. */
  lemma AdmittedIff(calls: seq<Call>, limit: nat)
    requires calls != [] && InOrder(calls)
    ensures Admitted(calls, limit) <==> Fell(calls, BucketOf(calls[|calls| - 1])) <= limit
    ensures var c := calls[|calls| - 1]; Admitted(calls, limit) <==> |InMinute(calls, c.who, c.at.Floor / 60)| <= limit
  {
    FellIsSize(calls, calls[|calls| - 1].who, Minute(calls[|calls| - 1].at));
    MinuteEnds(calls[|calls| - 1].at);
    CountersAreExact(calls, BucketOf(calls[|calls| - 1]));
  }

  /** The positions of a client's calls in a minute. */
  function InMinute(calls: seq<Call>, who: Who, minute: int): set<nat> {
    set i: nat | i < |calls| && calls[i].who == who && calls[i].at.Floor / 60 == minute
  }

  lemma {:induction false} FellIsSize(calls: seq<Call>, who: Who, minute: int)
    ensures Fell(calls, Bucket(who, minute)) == |InMinute(calls, who, minute)|
  {
    if calls != [] {
      var n := |calls| - 1;
      FellIsSize(calls[..n], who, minute);
      if calls[n].who == who && calls[n].at.Floor / 60 == minute {
        assert InMinute(calls, who, minute) == InMinute(calls[..n], who, minute) + {n};
      } else {
        assert InMinute(calls, who, minute) == InMinute(calls[..n], who, minute);
      }
    }
  }

  /** Admitted calls of a client at times satisfying a condition. */
  function AdmittedAt(calls: seq<Call>, who: Who, limit: nat, when: real -> bool): nat {
    if calls == [] then 0 else
      var c := calls[|calls| - 1];
      AdmittedAt(calls[..|calls| - 1], who, limit, when) + if c.who == who && when(c.at) && Admitted(calls, limit) then 1 else 0
  }

  function During(minute: int): real -> bool {
    (at: real) => Minute(at) == minute
  }

  function Within(from: real): real -> bool {
    (at: real) => from <= at <= from + BUCKET_SECONDS as real
  }

  lemma {:induction false} AdmittedFell(calls: seq<Call>, who: Who, limit: nat, minute: int)
    ensures AdmittedAt(calls, who, limit, During(minute)) <= Fell(calls, Bucket(who, minute))
  {
    if calls != [] {
      AdmittedFell(calls[..|calls| - 1], who, limit, minute);
    }
  }

  lemma {:induction false} MinuteBound(calls: seq<Call>, who: Who, limit: nat, minute: int)
    requires InOrder(calls)
    ensures AdmittedAt(calls, who, limit, During(minute)) <= limit
  {
    if calls != [] {
      var c := calls[|calls| - 1];
      if c.who == who && Minute(c.at) == minute && Admitted(calls, limit) {
        AdmittedIff(calls, limit);
        AdmittedFell(calls, who, limit, minute);
      } else {
        MinuteBound(calls[..|calls| - 1], who, limit, minute);
      }
    }
  }

  lemma TwoMinutes(from: real, at: real)
    requires from <= at <= from + BUCKET_SECONDS as real
    ensures Minute(at) == Minute(from) || Minute(at) == Minute(from) + 1
  {
    assert from.Floor <= at.Floor <= from.Floor + BUCKET_SECONDS;
  }

  lemma {:induction false} WindowInTwoMinutes(calls: seq<Call>, who: Who, limit: nat, from: real)
    ensures AdmittedAt(calls, who, limit, Within(from)) <=
            AdmittedAt(calls, who, limit, During(Minute(from))) + AdmittedAt(calls, who, limit, During(Minute(from) + 1))
  {
    if calls != [] {
      var c := calls[|calls| - 1];
      WindowInTwoMinutes(calls[..|calls| - 1], who, limit, from);
      if Within(from)(c.at) {
        TwoMinutes(from, c.at);
      }
    }
  }

  /** Any 60 consecutive seconds admit at most twice the limit. */
  lemma AtMostTwice(calls: seq<Call>, who: Who, limit: nat, from: real)
    requires InOrder(calls)
    ensures AdmittedAt(calls, who, limit, Within(from)) <= 2 * limit
  {
    WindowInTwoMinutes(calls, who, limit, from);
    MinuteBound(calls, who, limit, Minute(from));
    MinuteBound(calls, who, limit, Minute(from) + 1);
  }

  // ---------- the bound is reached ----------

  /** A burst at the end of one minute followed by a burst at the start of the next. */
  function Burst(who: Who, n: nat): seq<Call> {
    seq(2 * n, i requires 0 <= i < 2 * n => Call(who, if i < n then 59.0 else 60.0))
  }

  lemma {:induction false} BurstFell(who: Who, n: nat, k: nat)
    requires k <= 2 * n
    ensures Fell(Burst(who, n)[..k], Bucket(who, 0)) == if k <= n then k else n
    ensures Fell(Burst(who, n)[..k], Bucket(who, 1)) == if k <= n then 0 else k - n
  {
    if k > 0 {
      BurstFell(who, n, k - 1);
      assert Burst(who, n)[..k][..k - 1] == Burst(who, n)[..k - 1];
    }
  }

  lemma {:induction false} BurstAdmitted(who: Who, n: nat, k: nat)
    requires k <= 2 * n
    ensures AdmittedAt(Burst(who, n)[..k], who, n, Within(59.0)) == k
  {
    if k > 0 {
      BurstAdmitted(who, n, k - 1);
      var calls := Burst(who, n)[..k];
      assert calls[..k - 1] == Burst(who, n)[..k - 1];
      BurstFell(who, n, k);
      AdmittedIff(calls, n);
    }
  }

  /** Twice the limit can be admitted within one second. */
  lemma TwiceIsReached(who: Who, limit: nat)
    ensures InOrder(Burst(who, limit)) && AdmittedAt(Burst(who, limit), who, limit, Within(59.0)) == 2 * limit
  {
    BurstAdmitted(who, limit, 2 * limit);
    assert Burst(who, limit)[..2 * limit] == Burst(who, limit);
  }
}
